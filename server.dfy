/** The server's closed-connection test (main.go). */
module Server {
  import opened Wrappers
  import opened Errors

  /** The text Go's net package puts in an error from a closed connection. */
  const ClosedConnText: string := "use of closed network connection"

  /** `strings.Contains`: `sub` occurs in `s` as a contiguous run (case-sensitive). */
  function Contains(s: string, sub: string): (b: bool)
    decreases |s|
  {
    |sub| <= |s| && (s[..|sub|] == sub || Contains(s[1..], sub))
  }

  /** `sub` occurs in `s` starting at position `i`. */
  predicate OccursAt(s: string, sub: string, i: int)
  {
    0 <= i <= |s| - |sub| && s[i..i + |sub|] == sub
  }

  /** An occurrence at any position is found by Contains. */
  lemma {:induction false} OccursAtContains(s: string, sub: string, i: int)
    requires OccursAt(s, sub, i)
    ensures Contains(s, sub)
    decreases i
  {
    if i > 0 {
      assert s[1..][i - 1..i - 1 + |sub|] == s[i..i + |sub|];
      OccursAtContains(s[1..], sub, i - 1);
    }
  }

  /** Whatever Contains finds is an occurrence at some position. */
  lemma {:induction false} ContainsOccursAt(s: string, sub: string)
    requires Contains(s, sub)
    ensures exists i :: OccursAt(s, sub, i)
    decreases |s|
  {
    if s[..|sub|] == sub {
      assert OccursAt(s, sub, 0);
    } else {
      ContainsOccursAt(s[1..], sub);
      var i :| OccursAt(s[1..], sub, i);
      assert s[i + 1..i + 1 + |sub|] == s[1..][i..i + |sub|];
      assert OccursAt(s, sub, i + 1);
    }
  }

  /** Contains agrees with the positional definition of an occurrence, both ways. */
  lemma ContainsIffOccurs(s: string, sub: string)
    ensures Contains(s, sub) <==> exists i :: OccursAt(s, sub, i)
  {
    if Contains(s, sub) {
      ContainsOccursAt(s, sub);
    }
    forall i | OccursAt(s, sub, i) ensures Contains(s, sub) {
      OccursAtContains(s, sub, i);
    }
  }

  /** `isClosedConnError`: false for a nil error; otherwise true exactly when the
      message contains the closed-connection text. */
  function IsClosedConnError(err: Option<Fault>): (b: bool)
    ensures err.None? ==> !b
    ensures err.Some? ==> (b <==> exists i :: OccursAt(Text(err.value), ClosedConnText, i))
  {
    if err.None? then false
    else
      var str := Text(err.value);
      ContainsIffOccurs(str, ClosedConnText);
      Contains(str, ClosedConnText)
  }

  /** The text may sit anywhere in the message; only the text matters, not the error's kind. */
  lemma ClosedConnAnywhere(prefix: string, suffix: string)
    ensures IsClosedConnError(Some(Other(prefix + ClosedConnText + suffix)))
    ensures IsClosedConnError(Some(HTTP(500, prefix + ClosedConnText + suffix)))
  {
    var m := prefix + ClosedConnText + suffix;
    assert m[|prefix|..|prefix| + |ClosedConnText|] == ClosedConnText;
    assert OccursAt(m, ClosedConnText, |prefix|);
  }

  /** The match is case-sensitive. */
  lemma ClosedConnCaseSensitive()
    ensures !IsClosedConnError(Some(Other("Use of closed network connection")))
  {
    var m := "Use of closed network connection";
    assert m[0] != ClosedConnText[0];
  }
}
