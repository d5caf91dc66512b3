/** Which bytes count as credentials and which are starred (transport.rs), in plain bytes. */
module StderrLaws {
  import opened Wrappers
  import opened StderrTails

  // ---- the escaped form

  function HexValue(b: byte): Option<nat> {
    if 48 <= b <= 57 then Some(b - 48) else if 97 <= b <= 102 then Some(b - 87) else None
  }

  // Reading one escape of a JSON string (RFC 8259, section 7): its byte and its length.
  function ReadEscape(s: Bytes): Option<(byte, nat)> {
    if |s| < 2 || s[0] != 92 then None
    else if s[1] in {34, 47, 92} then Some((s[1], 2))
    else if s[1] == 98 then Some((8, 2))
    else if s[1] == 102 then Some((12, 2))
    else if s[1] == 110 then Some((10, 2))
    else if s[1] == 114 then Some((13, 2))
    else if s[1] == 116 then Some((9, 2))
    else if |s| >= 6 && s[1] == 117 && s[2] == 48 && s[3] == 48 && HexValue(s[4]).Some? && HexValue(s[5]).Some? then
      Some((16 * HexValue(s[4]).value + HexValue(s[5]).value, 6))
    else None
  }

  // Reading the inside of a JSON string; none if it has a raw quote or control byte, or a bad escape.
  function Unescape(s: Bytes): Option<Bytes> {
    if s == [] then Some([])
    else if s[0] == 92 then
      match ReadEscape(s)
      case None => None
      case Some((b, n)) => match Unescape(s[n..]) case None => None case Some(rest) => Some([b] + rest)
    else if s[0] < 32 || s[0] == 34 then None
    else match Unescape(s[1..]) case None => None case Some(rest) => Some([s[0]] + rest)
  }

  lemma EscapedByte(b: byte, rest: Bytes)
    ensures Unescape(EscapeByte(b) + rest) ==
      match Unescape(rest) case None => None case Some(r) => Some([b] + r)
  {
    var s := EscapeByte(b) + rest;
    if s[0] == 92 {
      assert ReadEscape(s) == Some((b, |EscapeByte(b)|));
    }
    assert s[|EscapeByte(b)|..] == rest;
  }

  // The escaped form is a JSON string of the same bytes.
  lemma {:induction false} EscapeLaw(s: Bytes)
    ensures Unescape(Escape(s)) == Some(s)
  {
    hide Unescape, EscapeByte;
    if s == [] {
      NothingEscaped();
    } else {
      EscapeLaw(s[1..]);
      EscapedByte(s[0], Escape(s[1..]));
      assert s == [s[0]] + s[1..];
    }
  }

  lemma NothingEscaped()
    ensures Escape([]) == [] && Unescape([]) == Some([])
  {}

  // A byte that needs no escape stays as it is.
  lemma {:induction false} PlainLaw(s: Bytes)
    requires forall i :: 0 <= i < |s| ==> 32 <= s[i] && s[i] !in {34, 92}
    ensures Escape(s) == s
  {
    if s != [] {
      PlainLaw(s[1..]);
      PlainByte(s[0]);
      hide EscapeByte;
      assert s == [s[0]] + s[1..];
    }
  }

  lemma PlainByte(b: byte)
    requires 32 <= b && b !in {34, 92}
    ensures EscapeByte(b) == [b]
  {}

  // Line feeds and quotes, as they occur in keys and configuration, have their short forms.
  lemma ShortFormsLaw(b: byte)
    ensures |EscapeByte(b)| == if b in {8, 9, 10, 12, 13, 34, 92} then 2 else if b < 32 then 6 else 1
  {}

  // ---- the credentials

  // The values of the credential variables, but for empty ones.
  lemma {:induction false} SecretsLaw(env: seq<Variable>, isCredential: string -> bool, s: Bytes)
    ensures s in Secrets(env, isCredential) <==>
      s != [] && exists v <- env :: isCredential(v.name) && v.value == s
  {
    if env != [] {
      SecretsLaw(env[1..], isCredential, s);
      assert env == [env[0]] + env[1..];
      assert forall v :: v in env <==> v == env[0] || v in env[1..];
    }
  }

  // Diagnostics are suppressed for a credential of over 16384 bytes, for more than 64 forms, or for forms
  // of more than 16384 bytes together.
  lemma TooManyLaw(secrets: seq<Bytes>, forms: seq<Bytes>, f: Bytes)
    ensures TooMany(secrets) <==>
      (exists s <- secrets :: |s| > 16384) || |Forms(secrets)| > 64 || TotalLength(Forms(secrets)) > 16384
    ensures TotalLength([]) == 0 && TotalLength(forms + [f]) == TotalLength(forms) + |f|
  {
    assert (forms + [f])[..|forms|] == forms;
  }

  // ---- masking

  lemma OccurrenceLaw(a: Bytes, c: Bytes, b: Bytes, credentials: seq<Bytes>, i: nat)
    requires c in credentials && |a| <= i < |a| + |c|
    ensures Masked(a + c + b, credentials, i)
  {
    var w := a + c + b;
    assert w[|a|..|a| + |c|] == c && Occurs(w, c, |a|);
    assert MaskedBy(w, c, i);
  }

  lemma BeginningLaw(a: Bytes, c: Bytes, n: nat, credentials: seq<Bytes>, i: nat)
    requires c in credentials && 0 < n < |c| && |a| <= i < |a| + n
    ensures Masked(a + c[..n], credentials, i)
  {
    var w := a + c[..n];
    assert w[|w| - n..] == c[..n] && Unfinished(w, c, n);
    assert MaskedBy(w, c, i);
  }

  // Byte `i` lies in the credential `c` that stands between `a` and `b`.
  ghost predicate Inside(w: Bytes, i: nat, a: Bytes, c: Bytes, b: Bytes) {
    w == a + c + b && |a| <= i < |a| + |c|
  }

  // Byte `i` lies in the first `n` bytes of the credential `c` that follow `a` at the end of the stream.
  ghost predicate Beginning(w: Bytes, i: nat, a: Bytes, c: Bytes, n: nat) {
    0 < n < |c| && w == a + c[..n] && |a| <= i
  }

  // A byte is starred exactly when it lies in a credential, or in the beginning of one the stream ends with.
  lemma MaskedLaw(w: Bytes, credentials: seq<Bytes>, i: nat)
    requires i < |w|
    ensures Masked(w, credentials, i) <==> exists c <- credentials ::
      (exists a, b :: Inside(w, i, a, c, b)) || (exists a, n :: Beginning(w, i, a, c, n))
    ensures STAR == 42
  {
    if Masked(w, credentials, i) {
      var c :| c in credentials && MaskedBy(w, c, i);
      if InOccurrence(w, c, |w| + 1, i) {
        var o: nat :| o < |w| + 1 && o <= i < o + |c| && Occurs(w, c, o);
        assert Inside(w, i, w[..o], c, w[o + |c|..]);
      } else {
        var n: nat :| n < |c| && |w| - n <= i && Unfinished(w, c, n);
        assert Beginning(w, i, w[..|w| - n], c, n);
      }
    }
    forall c, a, b | c in credentials && Inside(w, i, a, c, b) ensures Masked(w, credentials, i) {
      OccurrenceLaw(a, c, b, credentials, i);
    }
    forall c, a, n | c in credentials && Beginning(w, i, a, c, n) ensures Masked(w, credentials, i) {
      BeginningLaw(a, c, n, credentials, i);
    }
  }
}
