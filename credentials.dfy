/** The random secrets of the fixture chain: the database admin password,
    the accounting cluster name and the munge key. Each random draw is an
    argument whose precondition states the alphabet or range it comes from. */
module Credentials {
  import opened Wrappers
  import opened Text
  import Base64

  /** The special characters the password draws from. */
  const PasswordSpecials: string := "!$%^()_+"

  predicate IsSpecial(c: char) { c in PasswordSpecials }
  predicate IsLowerAlnum(c: char) { IsLower(c) || IsDigit(c) }

  predicate AllUpper(s: string) { forall i :: 0 <= i < |s| ==> IsUpper(s[i]) }
  predicate AllSpecial(s: string) { forall i :: 0 <= i < |s| ==> IsSpecial(s[i]) }
  predicate AllLower(s: string) { forall i :: 0 <= i < |s| ==> IsLower(s[i]) }
  predicate AllLowerAlnum(s: string) { forall i :: 0 <= i < |s| ==> IsLowerAlnum(s[i]) }

  /** The password layout: 20 characters, six upper-case letters, then four
      special characters, then four digits, then six lower-case letters. */
  predicate PasswordLayout(p: string) {
    && |p| == 20
    && (forall i :: 0 <= i < 6 ==> IsUpper(p[i]))
    && (forall i :: 6 <= i < 10 ==> IsSpecial(p[i]))
    && (forall i :: 10 <= i < 14 ==> IsDigit(p[i]))
    && (forall i :: 14 <= i < 20 ==> IsLower(p[i]))
  }

  /** A password with a character of each of the four classes. */
  predicate HasAllClasses(p: string) {
    && (exists i :: 0 <= i < |p| && IsUpper(p[i]))
    && (exists i :: 0 <= i < |p| && IsSpecial(p[i]))
    && (exists i :: 0 <= i < |p| && IsDigit(p[i]))
    && (exists i :: 0 <= i < |p| && IsLower(p[i]))
  }

  /** The admin password: the four groups of draws (`random.choices` with
      k = 6, 4, 4 and 6) joined in order, not shuffled. */
  function AdminPassword(upper: string, specials: string, digits: string, lower: string): (p: string)
    requires |upper| == 6 && AllUpper(upper)
    requires |specials| == 4 && AllSpecial(specials)
    requires |digits| == 4 && AllDigits(digits)
    requires |lower| == 6 && AllLower(lower)
    ensures PasswordLayout(p)
    ensures HasAllClasses(p)
  {
    var p := upper + specials + digits + lower;
    assert IsUpper(p[0]) && IsSpecial(p[6]) && IsDigit(p[10]) && IsLower(p[14]);
    p
  }

  /** Every password of the layout is produced by some draws: the layout is
      exactly the set of passwords the fixture can generate. */
  lemma PasswordLayoutIsReachable(p: string)
    requires PasswordLayout(p)
    ensures AdminPassword(p[..6], p[6..10], p[10..14], p[14..]) == p
  {
    assert p[..6] + p[6..10] + p[10..14] + p[14..] == p;
  }

  const ClusterNamePrefix: string := "slurm-accounting-"

  /** The shape `slurm-accounting-[a-z0-9]{6}`. */
  predicate IsClusterName(s: string) {
    && |s| == |ClusterNamePrefix| + 6
    && s[..|ClusterNamePrefix|] == ClusterNamePrefix
    && forall i :: |ClusterNamePrefix| <= i < |s| ==> IsLowerAlnum(s[i])
  }

  /** The cluster name: the fixed prefix and six draws from the lower-case
      letters and digits. */
  function ClusterName(suffix: string): (name: string)
    requires |suffix| == 6 && AllLowerAlnum(suffix)
    ensures IsClusterName(name)
  {
    ClusterNamePrefix + suffix
  }

  /** Every name of that shape is the cluster name of its own suffix. */
  lemma ClusterNameShapeIsReachable(s: string)
    requires IsClusterName(s)
    ensures ClusterName(s[|ClusterNamePrefix|..]) == s
  {
    assert s[..|ClusterNamePrefix|] + s[|ClusterNamePrefix|..] == s;
  }

  /** What the `munge_key` fixture yields: the encoded key when it made one,
      and the ARN of the secret holding it. */
  datatype MungeKey = MungeKey(plaintext: Option<string>, secretArn: string)

  /** A `store_secret_in_secret_manager(region, secret_string=...)` request. */
  datatype SecretPut = SecretPut(region: string, secretString: string)

  /** The fixture's value and the secret it asked to store, if any. */
  datatype MungeKeySetup = MungeKeySetup(key: MungeKey, stored: Option<SecretPut>)

  /** `munge_key`: borrow the secret named by the option, or draw a key
      length with `randrange(32, 1024)`, that many random bytes, and store
      their Base64 text; `storedArn` is what the secret store answers. */
  function MungeKeyFixture(existingArn: Option<string>, region: string, keyLength: int,
                           randomKey: seq<Base64.byte>, storedArn: string): (r: MungeKeySetup)
    requires !Truthy(existingArn) ==> 32 <= keyLength < 1024 && |randomKey| == keyLength
    ensures Truthy(existingArn) ==> r == MungeKeySetup(MungeKey(None, existingArn.value), None)
    ensures !Truthy(existingArn) ==>
      && r.stored.Some? && r.stored.value.region == region
      && r.key == MungeKey(Some(r.stored.value.secretString), storedArn)
      && r.stored.value.secretString == Base64.Encode(randomKey)
      && Base64.Decode(r.stored.value.secretString) == Some(randomKey)
      && 32 <= |randomKey| <= 1023
  {
    if Truthy(existingArn) then
      MungeKeySetup(MungeKey(None, existingArn.value), None)
    else
      var encoded := Base64.Encode(randomKey);
      Base64.DecodeEncode(randomKey);
      MungeKeySetup(MungeKey(Some(encoded), storedArn), Some(SecretPut(region, encoded)))
  }
}
