/** The user profile record kept under the storage key "userProfile". */
module Profiles {
  import opened Wrappers
  import Codec

  const ProfileKey := "userProfile"

  datatype Profile = Profile(
    name: string,
    email: string,
    phone: string,
    location: string,
    dateOfBirth: string,
    avatar: string,
    bio: string)

  /** The record the profile dialog shows when nothing is stored. */
  const DefaultProfile := Profile("John Doe", "john.doe@example.com", "+91-98765-43210",
                                  "Mumbai, India", "1999-05-15", "",
                                  "Aspiring MBA student preparing for CAT 2026")

  /** The fields in the order JSON.stringify writes them. */
  function Fields(p: Profile): seq<string>
  {
    [p.name, p.email, p.phone, p.location, p.dateOfBirth, p.avatar, p.bio]
  }

  /** JSON.stringify of a profile. */
  function Encode(p: Profile): string
  {
    Codec.EncodeFields(Fields(p))
  }

  /** JSON.parse of a stored profile; None for malformed text. */
  function Decode(s: string): Option<Profile>
  {
    match Codec.DecodeFields(s)
    case Some(fs) =>
      if |fs| == 7 then Some(Profile(fs[0], fs[1], fs[2], fs[3], fs[4], fs[5], fs[6])) else None
    case None => None
  }

  /** A stored profile reads back as the profile that was written. */
  lemma DecodeEncode(p: Profile)
    ensures Decode(Encode(p)) == Some(p)
  {
    Codec.DecodeEncodeFields(Fields(p));
  }

  /** The stored text is never empty, so a stored profile is never taken for "no profile". */
  lemma EncodeNonEmpty(p: Profile)
    ensures Encode(p) != ""
  {
    assert Codec.EncodeFields(Fields(p)) == Codec.EncodeField(p.name) + Codec.EncodeFields(Fields(p)[1..]);
  }

  lemma DecodeEncodeAll()
    ensures forall p :: Decode(Encode(p)) == Some(p) && Encode(p) != ""
  {
    forall p ensures Decode(Encode(p)) == Some(p) && Encode(p) != "" {
      DecodeEncode(p);
      EncodeNonEmpty(p);
    }
  }
}
