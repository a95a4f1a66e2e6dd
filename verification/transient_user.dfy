/**
 * A user held in memory: an identifier, a hashed password and a set of
 * capabilities that can be granted and revoked after construction.
 */
module Users {

  /** A UTF-16 code unit, the element type of a Java string. */
  newtype CodeUnit = x: int | 0 <= x < 0x1_0000

  /** Java string text, as the sequence of UTF-16 code units that String.compareTo walks. */
  type JavaString = seq<CodeUnit>

  datatype UserIdentifier = UserIdentifier(id: JavaString)

  datatype Capability = Capability(name: string)

  /**
   * The password hashing utility, which the model does not interpret: `hash`
   * turns a clear-text password into its stored form, `verify` checks a
   * clear-text password against a stored hash.
   */
  datatype PasswordCodec = PasswordCodec(hash: string -> string, verify: (string, string) -> bool)

  /** What a java.util.Set update of the capabilities leaves behind: the new set and whether it changed. */
  datatype SetChange = SetChange(result: set<Capability>, changed: bool)

  /** Set.add: true when the element was not yet present. */
  function SetAdd(s: set<Capability>, x: Capability): (r: SetChange)
    ensures r.changed <==> x !in s
    ensures x in r.result
    ensures forall y :: y != x ==> (y in r.result <==> y in s)
  {
    SetChange(s + {x}, x !in s)
  }

  /** Set.remove: true when the element was present. */
  function SetRemove(s: set<Capability>, x: Capability): (r: SetChange)
    ensures r.changed <==> x in s
    ensures x !in r.result
    ensures forall y :: y != x ==> (y in r.result <==> y in s)
  {
    SetChange(s - {x}, x in s)
  }

  /** Adding twice: the second add reports no change and leaves the set as the first left it. */
  lemma AddIsIdempotent(s: set<Capability>, x: Capability)
    ensures SetAdd(SetAdd(s, x).result, x) == SetChange(SetAdd(s, x).result, false)
  {
  }

  /** Removing what was just added restores the original set. */
  lemma RemoveUndoesAdd(s: set<Capability>, x: Capability)
    requires x !in s
    ensures SetRemove(SetAdd(s, x).result, x) == SetChange(s, true)
  {
  }

  /** Adding back what was just removed restores the original set. */
  lemma AddUndoesRemove(s: set<Capability>, x: Capability)
    requires x in s
    ensures SetAdd(SetRemove(s, x).result, x) == SetChange(s, true)
  {
  }

  /**
   * String.compareTo: the difference of the first differing UTF-16 code units,
   * or the difference of the lengths when one string is a prefix of the other.
   */
  function CompareStrings(a: JavaString, b: JavaString): (r: int)
  {
    if a == [] || b == [] then |a| - |b|
    else if a[0] != b[0] then a[0] as int - b[0] as int
    else CompareStrings(a[1..], b[1..])
  }

  /** UserIdentifier.compareTo, ordering identifiers by their text. */
  function CompareIdentifiers(a: UserIdentifier, b: UserIdentifier): (r: int)
  {
    CompareStrings(a.id, b.id)
  }

  /** Lexicographic order: a strictly precedes b. */
  ghost predicate LexLess(a: JavaString, b: JavaString)
  {
    || (exists k :: 0 <= k < |a| && k < |b| && a[..k] == b[..k] && a[k] < b[k])
    || (|a| < |b| && a == b[..|a|])
  }

  /** Comparison is zero exactly for equal strings. */
  lemma {:induction false} CompareZeroIffEqual(a: JavaString, b: JavaString)
    ensures CompareStrings(a, b) == 0 <==> a == b
  {
    if a != [] && b != [] && a[0] == b[0] {
      CompareZeroIffEqual(a[1..], b[1..]);
      assert a == [a[0]] + a[1..] && b == [b[0]] + b[1..];
    }
  }

  /** Swapping the arguments negates the comparison. */
  lemma {:induction false} CompareAntisymmetric(a: JavaString, b: JavaString)
    ensures CompareStrings(a, b) == -CompareStrings(b, a)
  {
    if a != [] && b != [] && a[0] == b[0] {
      CompareAntisymmetric(a[1..], b[1..]);
    }
  }

  /** "Precedes" according to the comparison is transitive. */
  lemma {:induction false} CompareTransitive(a: JavaString, b: JavaString, c: JavaString)
    requires CompareStrings(a, b) < 0 && CompareStrings(b, c) < 0
    ensures CompareStrings(a, c) < 0
  {
    if a != [] && b != [] && c != [] && a[0] == b[0] && b[0] == c[0] {
      CompareTransitive(a[1..], b[1..], c[1..]);
    }
  }

  /** A negative comparison means exactly that the first string precedes the second lexicographically. */
  lemma {:induction false} CompareNegativeIffLexLess(a: JavaString, b: JavaString)
    ensures CompareStrings(a, b) < 0 <==> LexLess(a, b)
  {
    if a == [] {
      assert b[..|a|] == [];
    } else if b == [] {
    } else if a[0] != b[0] {
      if a[0] < b[0] {
        assert a[..0] == b[..0];
      }
      if LexLess(a, b) {
        if exists k :: 0 <= k < |a| && k < |b| && a[..k] == b[..k] && a[k] < b[k] {
          var k :| 0 <= k < |a| && k < |b| && a[..k] == b[..k] && a[k] < b[k];
          if k > 0 {
            assert a[..k][0] == b[..k][0];
          }
        }
      }
    } else {
      var a', b' := a[1..], b[1..];
      CompareNegativeIffLexLess(a', b');
      LexLessTail(a, b);
    }
  }

  /** Strings with the same first character compare as their tails do. */
  lemma LexLessTail(a: JavaString, b: JavaString)
    requires a != [] && b != [] && a[0] == b[0]
    ensures LexLess(a, b) <==> LexLess(a[1..], b[1..])
  {
    var a', b' := a[1..], b[1..];
    if exists k :: 0 <= k < |a| && k < |b| && a[..k] == b[..k] && a[k] < b[k] {
      var k :| 0 <= k < |a| && k < |b| && a[..k] == b[..k] && a[k] < b[k];
      assert k != 0;
      assert a'[..k - 1] == a[..k][1..] && b'[..k - 1] == b[..k][1..];
      assert a'[k - 1] < b'[k - 1];
    }
    if exists k :: 0 <= k < |a'| && k < |b'| && a'[..k] == b'[..k] && a'[k] < b'[k] {
      var k :| 0 <= k < |a'| && k < |b'| && a'[..k] == b'[..k] && a'[k] < b'[k];
      assert a[..k + 1] == [a[0]] + a'[..k] && b[..k + 1] == [b[0]] + b'[..k];
      assert a[k + 1] < b[k + 1];
    }
    if |a| < |b| && a == b[..|a|] {
      assert b'[..|a'|] == b[..|a|][1..];
    }
    if |a'| < |b'| && a' == b'[..|a'|] {
      assert a == [a[0]] + a' && b[..|a|] == [b[0]] + b'[..|a'|];
    }
  }

  class TransientUser {
    var userIdentifier: UserIdentifier
    var hashedPassword: string
    var capabilities: set<Capability>
    /** The hashing utility the user's password goes through. */
    const codec: PasswordCodec

    /** Hashes the password and takes the given capabilities, duplicates collapsed. */
    constructor (userIdentifier: UserIdentifier, password: string, capabilities: seq<Capability>,
                 codec: PasswordCodec)
      ensures this.userIdentifier == userIdentifier && this.codec == codec
      ensures hashedPassword == codec.hash(password)
      ensures forall c :: c in this.capabilities <==> c in capabilities
    {
      this.userIdentifier := userIdentifier;
      this.codec := codec;
      this.hashedPassword := codec.hash(password);
      this.capabilities := set c | c in capabilities;
    }

    method GetIdentifier() returns (id: UserIdentifier)
      ensures id == userIdentifier
    {
      id := userIdentifier;
    }

    /** Grants a capability; reports whether the user lacked it. */
    method AddCapability(capability: Capability) returns (changed: bool)
      modifies this`capabilities
      ensures SetChange(capabilities, changed) == SetAdd(old(capabilities), capability)
      ensures changed <==> capability !in old(capabilities)
      ensures capabilities == old(capabilities) + {capability}
    {
      changed := capability !in capabilities;
      capabilities := capabilities + {capability};
    }

    /** Revokes a capability; reports whether the user had it. */
    method RemoveCapability(capability: Capability) returns (changed: bool)
      modifies this`capabilities
      ensures SetChange(capabilities, changed) == SetRemove(old(capabilities), capability)
      ensures changed <==> capability in old(capabilities)
      ensures capabilities == old(capabilities) - {capability}
    {
      changed := capability in capabilities;
      capabilities := capabilities - {capability};
    }

    method HasCapability(capability: Capability) returns (has: bool)
      ensures has <==> capability in capabilities
    {
      has := capability in capabilities;
    }

    method GetCapabilities() returns (result: set<Capability>)
      ensures forall c :: c in result <==> c in capabilities
    {
      result := capabilities;
    }

    /** Delegates to the hashing utility with the stored hash. */
    method VerifyPassword(password: string) returns (ok: bool)
      ensures ok == codec.verify(password, hashedPassword)
    {
      ok := codec.verify(password, hashedPassword);
    }

    /** Replaces the stored hash by the hash of the new password. */
    method ChangePassword(password: string)
      modifies this`hashedPassword
      ensures hashedPassword == codec.hash(password)
    {
      hashedPassword := codec.hash(password);
    }

    /** Users are ordered by their identifiers. */
    method CompareTo(other: TransientUser) returns (r: int)
      ensures r == 0 <==> userIdentifier == other.userIdentifier
      ensures r < 0 <==> LexLess(userIdentifier.id, other.userIdentifier.id)
      ensures r > 0 <==> LexLess(other.userIdentifier.id, userIdentifier.id)
    {
      var otherId := other.GetIdentifier();
      r := CompareIdentifiers(userIdentifier, otherId);
      CompareZeroIffEqual(userIdentifier.id, otherId.id);
      CompareNegativeIffLexLess(userIdentifier.id, otherId.id);
      CompareNegativeIffLexLess(otherId.id, userIdentifier.id);
      CompareAntisymmetric(userIdentifier.id, otherId.id);
    }
  }

  /**
   * Granting a capability twice: the second call reports no change and leaves
   * the capabilities as the first call left them.
   */
  method AddCapabilityTwice(user: TransientUser, capability: Capability) returns (first: bool, second: bool)
    modifies user`capabilities
    ensures first <==> capability !in old(user.capabilities)
    ensures !second
    ensures user.capabilities == old(user.capabilities) + {capability}
  {
    first := user.AddCapability(capability);
    second := user.AddCapability(capability);
  }
}
