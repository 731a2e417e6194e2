/*
 * The profile update call. Its multipart body is built from an allow-list:
 * only the listed profile fields are sent, in the list's order, each
 * converted to a string, and the profile image follows them only when it is
 * an actual File or Blob. Any other key of the submitted object (email,
 * role, ...) is never sent.
 */
module AuthService {
  import opened Js
  import opened Http

  /** The fields a profile update may carry, in the order they are sent. */
  const Allowed: seq<string> :=
    ["mobileNumber", "gender", "address", "city", "state", "country", "pincode", "fullName"]

  const ImageField: string := "profileImage"
  const ProfilePath: string := "/admin/profile"

  /** The part appended for one allowed key, if its value is present:
      `formData.append(key, String(profile[key]))`. */
  function AllowedPart(profile: Record, key: string): seq<Entry> {
    if Nullish(Get(profile, key)) then [] else [Entry(key, Text(ToJsString(Get(profile, key))))]
  }

  /** The parts the loop over `keys` appends. */
  function AllowedEntries(profile: Record, keys: seq<string>): seq<Entry>
    decreases |keys|
  {
    if keys == [] then [] else AllowedPart(profile, keys[0]) + AllowedEntries(profile, keys[1..])
  }

  /** The image part: only a File or Blob is appended. */
  function ImagePart(profile: Record): seq<Entry> {
    if Get(profile, ImageField).Binary? then [Entry(ImageField, File(Get(profile, ImageField)))] else []
  }

  /** The whole body `updateUserProfile` sends. */
  function ProfileBody(profile: Record): seq<Entry> {
    AllowedEntries(profile, Allowed) + ImagePart(profile)
  }

  lemma {:induction false} AllowedEntriesAppend(profile: Record, a: seq<string>, b: seq<string>)
    ensures AllowedEntries(profile, a + b) == AllowedEntries(profile, a) + AllowedEntries(profile, b)
    decreases |a|
  {
    if a == [] {
      assert a + b == b;
    } else {
      assert (a + b)[0] == a[0];
      assert (a + b)[1..] == a[1..] + b;
      AllowedEntriesAppend(profile, a[1..], b);
    }
  }

  /** Each part the loop appends is named by one of the keys it walks, holds
      that key's present value converted with `String`, and so is text. */
  lemma {:induction false} AllowedEntriesSound(profile: Record, keys: seq<string>)
    ensures forall k :: 0 <= k < |AllowedEntries(profile, keys)| ==>
              AllowedEntries(profile, keys)[k].name in keys &&
              !Nullish(Get(profile, AllowedEntries(profile, keys)[k].name)) &&
              AllowedEntries(profile, keys)[k].part ==
                Text(ToJsString(Get(profile, AllowedEntries(profile, keys)[k].name)))
    decreases |keys|
  {
    if keys == [] {
      assert AllowedEntries(profile, keys) == [];
    } else {
      AllowedEntriesSound(profile, keys[1..]);
      var head := AllowedPart(profile, keys[0]);
      var es := AllowedEntries(profile, keys);
      assert es == head + AllowedEntries(profile, keys[1..]);
      forall k | 0 <= k < |es|
        ensures es[k].name in keys && !Nullish(Get(profile, es[k].name)) &&
                es[k].part == Text(ToJsString(Get(profile, es[k].name)))
      {
        if k >= |head| {
          assert es[k] == AllowedEntries(profile, keys[1..])[k - |head|];
        }
      }
    }
  }

  /** Every allowed key whose value is present is sent. */
  lemma {:induction false} AllowedEntriesComplete(profile: Record, keys: seq<string>, i: nat)
    requires i < |keys| && !Nullish(Get(profile, keys[i]))
    ensures Entry(keys[i], Text(ToJsString(Get(profile, keys[i])))) in AllowedEntries(profile, keys)
    decreases i
  {
    if i > 0 {
      AllowedEntriesComplete(profile, keys[1..], i - 1);
    }
  }

  /** The names sent follow the order of the keys walked. */
  lemma {:induction false} AllowedEntriesInOrder(profile: Record, keys: seq<string>)
    ensures IsSubsequence(NamesOf(AllowedEntries(profile, keys)), keys)
    decreases |keys|
  {
    if keys != [] {
      AllowedEntriesInOrder(profile, keys[1..]);
      var rest := AllowedEntries(profile, keys[1..]);
      if Nullish(Get(profile, keys[0])) {
        assert AllowedEntries(profile, keys) == rest;
        SubsequenceOfTail(NamesOf(rest), keys);
      } else {
        assert AllowedEntries(profile, keys) == [Entry(keys[0], Text(ToJsString(Get(profile, keys[0]))))] + rest;
        assert NamesOf(AllowedEntries(profile, keys))[1..] == NamesOf(rest);
      }
    }
  }

  function NamesOf(es: seq<Entry>): (r: seq<string>)
    ensures |r| == |es|
    ensures forall i :: 0 <= i < |es| ==> r[i] == es[i].name
  {
    seq(|es|, i requires 0 <= i < |es| => es[i].name)
  }

  /** Only allowed fields and the image are ever sent: keys such as email or
      role never appear in the body, whatever the submitted object holds. */
  lemma OnlyAllowedFields(profile: Record)
    ensures forall k :: 0 <= k < |ProfileBody(profile)| ==>
              ProfileBody(profile)[k].name in Allowed || ProfileBody(profile)[k].name == ImageField
    ensures forall k :: 0 <= k < |ProfileBody(profile)| ==>
              ProfileBody(profile)[k].name != "email" && ProfileBody(profile)[k].name != "role"
  {
    AllowedEntriesSound(profile, Allowed);
    var es := AllowedEntries(profile, Allowed);
    forall k | 0 <= k < |ProfileBody(profile)|
      ensures ProfileBody(profile)[k].name in Allowed || ProfileBody(profile)[k].name == ImageField
    {
      if k < |es| {
        assert ProfileBody(profile)[k] == es[k];
      }
    }
  }

  /** The image is sent, once and as a file part, exactly when it is a File
      or Blob, and then it is the last part. */
  lemma ImageLast(profile: Record)
    ensures Get(profile, ImageField).Binary? ==>
              |ProfileBody(profile)| >= 1 &&
              ProfileBody(profile)[|ProfileBody(profile)| - 1] ==
                Entry(ImageField, File(Get(profile, ImageField)))
    ensures forall k :: 0 <= k < |ProfileBody(profile)| - 1 ==> ProfileBody(profile)[k].name != ImageField
    ensures !Get(profile, ImageField).Binary? ==>
              forall k :: 0 <= k < |ProfileBody(profile)| ==> ProfileBody(profile)[k].name != ImageField
  {
    AllowedEntriesSound(profile, Allowed);
    var es := AllowedEntries(profile, Allowed);
    assert ImageField !in Allowed;
    forall k | 0 <= k < |es| ensures ProfileBody(profile)[k].name != ImageField {
      assert ProfileBody(profile)[k] == es[k];
    }
  }

  /** Every allowed field whose value is present is sent, as `String(value)`,
      and every field sent is such a field; their order is the allow-list's. */
  lemma AllowedFieldsExactly(profile: Record)
    ensures forall i :: 0 <= i < |Allowed| && !Nullish(Get(profile, Allowed[i])) ==>
              Entry(Allowed[i], Text(ToJsString(Get(profile, Allowed[i])))) in ProfileBody(profile)
    ensures forall k :: 0 <= k < |ProfileBody(profile)| && ProfileBody(profile)[k].name != ImageField ==>
              !Nullish(Get(profile, ProfileBody(profile)[k].name)) &&
              ProfileBody(profile)[k].part == Text(ToJsString(Get(profile, ProfileBody(profile)[k].name)))
    ensures IsSubsequence(NamesOf(AllowedEntries(profile, Allowed)), Allowed)
  {
    var es := AllowedEntries(profile, Allowed);
    forall i | 0 <= i < |Allowed| && !Nullish(Get(profile, Allowed[i]))
      ensures Entry(Allowed[i], Text(ToJsString(Get(profile, Allowed[i])))) in ProfileBody(profile)
    {
      AllowedEntriesComplete(profile, Allowed, i);
    }
    AllowedEntriesSound(profile, Allowed);
    forall k | 0 <= k < |ProfileBody(profile)| && ProfileBody(profile)[k].name != ImageField
      ensures !Nullish(Get(profile, ProfileBody(profile)[k].name)) &&
              ProfileBody(profile)[k].part == Text(ToJsString(Get(profile, ProfileBody(profile)[k].name)))
    {
      if k < |es| {
        assert ProfileBody(profile)[k] == es[k];
      }
    }
    AllowedEntriesInOrder(profile, Allowed);
  }

  /** `for (const key of keys) if (present) formData.append(key, String(profile[key]))` */
  method AppendAllowed(fd: FormData, profile: Record, keys: seq<string>)
    modifies fd
    ensures fd.entries == old(fd.entries) + AllowedEntries(profile, keys)
  {
    var i := 0;
    while i < |keys|
      invariant 0 <= i <= |keys|
      invariant fd.entries == old(fd.entries) + AllowedEntries(profile, keys[..i])
    {
      var key := keys[i];
      assert keys[..i + 1] == keys[..i] + [key];
      AllowedEntriesAppend(profile, keys[..i], [key]);
      assert AllowedEntries(profile, [key]) == AllowedPart(profile, key);
      if !Nullish(Get(profile, key)) {
        fd.Append(key, Str(ToJsString(Get(profile, key))));
      }
      i := i + 1;
    }
    assert keys[..i] == keys;
  }

  /** `updateUserProfile(profile)`: PUT the allow-listed body to the profile
      endpoint, opting in to the success toast. */
  method UpdateUserProfile(profile: Record) returns (req: Request)
    ensures req == Request("PUT", ProfilePath, Multipart(ProfileBody(profile)), true)
  {
    var fd := new FormData();
    AppendAllowed(fd, profile, Allowed);
    assert fd.entries == AllowedEntries(profile, Allowed);
    var image := Get(profile, ImageField);
    if image.Binary? {
      fd.Append(ImageField, image);
    }
    assert fd.entries == ProfileBody(profile);
    req := Request("PUT", ProfilePath, Multipart(fd.entries), true);
  }
}
