/**
 * getInitials, as both the navigation bar and the profile dialog define it:
 * split the name on single spaces, take the first character of each piece
 * (an empty piece gives nothing, as `undefined` joins to nothing), join and
 * upper-case.
 */
module Initials {
  import opened Text

  /** First characters of the pieces, in order; empty pieces contribute nothing. */
  function Heads(parts: seq<string>): string
  {
    if parts == [] then ""
    else (if parts[0] == "" then "" else [parts[0][0]]) + Heads(parts[1..])
  }

  /**
   * The initials are the upper-cased first characters of the words of the
   * name, in order, where words are the maximal runs of non-spaces; there
   * is one initial per non-empty piece, so repeated spaces add nothing.
   */
  function Initials(name: string): (r: string)
    ensures r == ToUpper(WordStarts(name, true))
    ensures |r| == NonEmptyCount(Split(name, ' '))
    ensures forall i :: 0 <= i < |r| ==> r[i] != ' '
  {
    HeadsSplitIsWordStarts(name);
    WordStartsHaveNoSpace(name, true);
    HeadsLength(Split(name, ' '));
    ToUpper(Heads(Split(name, ' ')))
  }

  /**
   * Reference definition by a left-to-right scan: a character starts a word
   * when it is not a space and it is first or follows a space.
   */
  function WordStarts(s: string, afterSpace: bool): string
  {
    if s == [] then ""
    else (if s[0] != ' ' && afterSpace then [s[0]] else "") + WordStarts(s[1..], s[0] == ' ')
  }

  function NonEmptyCount(parts: seq<string>): nat
  {
    if parts == [] then 0 else (if parts[0] == "" then 0 else 1) + NonEmptyCount(parts[1..])
  }

  lemma {:induction false} HeadsSplitIsWordStarts(s: string)
    ensures Heads(Split(s, ' ')) == WordStarts(s, true)
    ensures Heads(Split(s, ' ')[1..]) == WordStarts(s, false)
  {
    if s != [] {
      HeadsSplitIsWordStarts(s[1..]);
      var rest := Split(s[1..], ' ');
      if s[0] == ' ' {
        assert Split(s, ' ') == [""] + rest;
        assert ([""] + rest)[1..] == rest;
      } else {
        var r := [[s[0]] + rest[0]] + rest[1..];
        assert Split(s, ' ') == r;
        assert r[1..] == rest[1..];
      }
    }
  }

  lemma {:induction false} HeadsLength(parts: seq<string>)
    ensures |Heads(parts)| == NonEmptyCount(parts)
  {
    if parts != [] {
      HeadsLength(parts[1..]);
    }
  }

  /** No initial is a space. */
  lemma {:induction false} WordStartsHaveNoSpace(s: string, afterSpace: bool)
    ensures forall i :: 0 <= i < |WordStarts(s, afterSpace)| ==> WordStarts(s, afterSpace)[i] != ' '
  {
    if s != [] {
      WordStartsHaveNoSpace(s[1..], s[0] == ' ');
    }
  }

  /** The initials of the default profile's name. */
  lemma DefaultNameInitials()
    ensures Initials("John Doe") == "JD"
  {
    assert WordStarts("e", false) == "";
    assert WordStarts("oe", false) == "";
    assert WordStarts("Doe", true) == "D";
    assert WordStarts(" Doe", false) == "D";
    assert WordStarts("n Doe", false) == "D";
    assert WordStarts("hn Doe", false) == "D";
    assert WordStarts("ohn Doe", false) == "D";
    assert WordStarts("John Doe", true) == "JD";
    assert ToUpper("JD") == "JD";
  }

  /** Leading and repeated spaces add no initial. */
  lemma SpacedNameInitials()
    ensures Initials("  a  b") == "AB"
  {
    assert WordStarts("b", true) == "b";
    assert WordStarts(" b", true) == "b";
    assert WordStarts("  b", false) == "b";
    assert WordStarts("a  b", true) == "ab";
    assert WordStarts(" a  b", true) == "ab";
    assert WordStarts("  a  b", true) == "ab";
    assert ToUpper("ab") == "AB";
  }
}
