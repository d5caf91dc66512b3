/**
 The bounded tail of a child process's standard error (transport.rs). What it publishes depends
 only on the bytes written so far, and no byte of a stored credential is in it.
 */
module StderrTails {
  import opened Wrappers

  type byte = n: int | 0 <= n < 256
  type Bytes = seq<byte>

  const STAR: byte := 42
  const USIZE_MAX: int := 0xFFFF_FFFF_FFFF_FFFF
  const MAX_FORMS: int := 64
  const MAX_FORM_BYTES: int := 16 * 1024

  datatype Variable = Variable(name: string, value: Bytes)

  // ---- which byte strings are credentials

  function Hex(n: nat): byte
    requires n < 16
  {
    if n < 10 then 48 + n else 87 + n
  }

  // A byte as serde_json writes it inside a string (RFC 8259, section 7).
  function EscapeByte(b: byte): Bytes {
    if b == 34 || b == 92 then [92, b]
    else if b == 8 then [92, 98]
    else if b == 9 then [92, 116]
    else if b == 10 then [92, 110]
    else if b == 12 then [92, 102]
    else if b == 13 then [92, 114]
    else if b < 32 then [92, 117, 48, 48, Hex(b / 16), Hex(b % 16)]
    else [b]
  }

  function Escape(s: Bytes): (r: Bytes)
    ensures |r| >= |s|
  {
    if s == [] then [] else EscapeByte(s[0]) + Escape(s[1..])
  }

  // The variables that hold a credential.
  function Secrets(env: seq<Variable>, isCredential: string -> bool): seq<Bytes> {
    if env == [] then []
    else if isCredential(env[0].name) && env[0].value != [] then [env[0].value] + Secrets(env[1..], isCredential)
    else Secrets(env[1..], isCredential)
  }

  function AddForm(forms: seq<Bytes>, form: Bytes): seq<Bytes> {
    if form in forms then forms else forms + [form]
  }

  // Their raw and escaped forms in order, each form once.
  function Forms(secrets: seq<Bytes>): seq<Bytes> {
    if secrets == [] then []
    else
      var last := secrets[|secrets| - 1];
      AddForm(AddForm(Forms(secrets[..|secrets| - 1]), last), Escape(last))
  }

  function TotalLength(forms: seq<Bytes>): nat {
    if forms == [] then 0 else TotalLength(forms[..|forms| - 1]) + |forms[|forms| - 1]|
  }

  predicate Overfull(forms: seq<Bytes>) {
    |forms| > MAX_FORMS || TotalLength(forms) > MAX_FORM_BYTES
  }

  predicate TooLong(secrets: seq<Bytes>) {
    exists s <- secrets :: |s| > MAX_FORM_BYTES
  }

  // More redaction history than the tail keeps: diagnostics are then suppressed.
  predicate TooMany(secrets: seq<Bytes>) {
    TooLong(secrets) || Overfull(Forms(secrets))
  }

  ghost predicate Distinct(forms: seq<Bytes>) {
    forall i, j :: 0 <= i < j < |forms| ==> forms[i] != forms[j]
  }

  // Both forms of every secret, nothing else, and no form twice.
  lemma {:induction false} FormsAre(secrets: seq<Bytes>, f: Bytes)
    ensures f in Forms(secrets) <==> exists s <- secrets :: f == s || f == Escape(s)
    ensures Distinct(Forms(secrets))
  {
    hide *;
    if secrets == [] {
      NothingTaken();
    } else {
      var before, last := secrets[..|secrets| - 1], secrets[|secrets| - 1];
      assert secrets == before + [last];
      FormsAre(before, f);
      var forms := Forms(before);
      FormsOneMore(before, last);
      AddedIn(forms, last);
      AddedIn(AddForm(forms, last), Escape(last));
      assert f in Forms(secrets) <==> f in forms || f == last || f == Escape(last);
      assert forall s :: s in secrets <==> s in before || s == last;
      assert last in secrets;
    }
  }

  // ---- which bytes of a text are masked

  predicate Occurs(w: Bytes, c: Bytes, o: nat) {
    o + |c| <= |w| && w[o..o + |c|] == c
  }

  // `w` ends with the first `n` bytes of `c`, more of which may follow.
  predicate Unfinished(w: Bytes, c: Bytes, n: nat) {
    1 <= n < |c| && n <= |w| && w[|w| - n..] == c[..n]
  }

  ghost predicate InOccurrence(w: Bytes, c: Bytes, before: nat, i: int) {
    exists o: nat :: o < before && o <= i < o + |c| && Occurs(w, c, o)
  }

  ghost predicate InUnfinished(w: Bytes, c: Bytes, before: nat, i: int) {
    exists n: nat :: n < before && |w| - n <= i && Unfinished(w, c, n)
  }

  ghost predicate MaskedBy(w: Bytes, c: Bytes, i: int) {
    InOccurrence(w, c, |w| + 1, i) || InUnfinished(w, c, |c|, i)
  }

  // Byte `i` of `w` lies in an occurrence of a credential, or in the beginning of one at the end.
  ghost predicate Masked(w: Bytes, credentials: seq<Bytes>, i: int) {
    exists c :: c in credentials && MaskedBy(w, c, i)
  }

  // The last `n` bytes of a stream.
  function Last(s: Bytes, n: nat): (r: Bytes)
    ensures |r| == if |s| <= n then |s| else n
  {
    if |s| <= n then s else s[|s| - n..]
  }

  lemma LastOneMore(s: Bytes, n: nat, b: byte)
    requires n > 0
    ensures Last(s + [b], n) == (if |Last(s, n)| == n then Last(s, n)[1..] else Last(s, n)) + [b]
  {}

  lemma Taking(stream: Bytes, data: Bytes, i: nat)
    requires i < |data|
    ensures stream + data[..i] + [data[i]] == stream + data[..i + 1]
  {}

  // What the whole stream `w` publishes: its last `limit` bytes with the masked ones starred.
  ghost predicate Publishes(w: Bytes, credentials: seq<Bytes>, limit: nat, text: Bytes) {
    && |text| == |Last(w, limit)|
    && forall i :: |w| - |text| <= i < |w| ==>
        text[i - (|w| - |text|)] == if Masked(w, credentials, i) then STAR else w[i]
  }

  class StderrTail {
    var bytes: Bytes
    const credentials: seq<Bytes>
    const limit: nat
    const overlap: nat
    ghost var written: Bytes   // the whole stream so far

    ghost function Capacity(): nat {
      if limit + overlap > USIZE_MAX then USIZE_MAX else limit + overlap
    }

    ghost predicate Valid()
      reads this
    {
      && limit <= USIZE_MAX
      && (forall c <- credentials :: 0 < |c| <= overlap)
      && bytes == if limit == 0 then [] else Last(written, Capacity())
    }

    constructor (limit: nat, env: seq<Variable>, isCredential: string -> bool)
      requires limit <= USIZE_MAX
      ensures Valid() && written == []
      ensures TooMany(Secrets(env, isCredential)) ==> this.limit == 0 && credentials == []
      ensures !TooMany(Secrets(env, isCredential)) ==>
        this.limit == limit && credentials == Forms(Secrets(env, isCredential))
    {
      var r := Collect(env, isCredential);
      if r.None? {
        this.limit, credentials, overlap := 0, [], 0;
      } else {
        this.limit, credentials, overlap := limit, r.value.0, r.value.1;
      }
      bytes, written := [], [];
    }

    // The tail is the last bytes of the whole stream, however the stream was cut into writes.
    method Write(data: Bytes)
      requires Valid()
      modifies this
      ensures Valid() && written == old(written) + data
    {
      hide Last;
      ghost var stream := written;
      written := stream + data;
      if limit == 0 {
        return;
      }
      var capacity := if limit + overlap > USIZE_MAX then USIZE_MAX else limit + overlap;
      ghost var taken := stream;
      var i := 0;
      while i < |data|
        invariant 0 <= i <= |data|
        invariant written == stream + data && taken == stream + data[..i]
        invariant bytes == Last(taken, capacity)
        invariant |bytes| <= capacity
      {
        LastOneMore(taken, capacity, data[i]);
        Taking(stream, data, i);
        taken := taken + [data[i]];
        if |bytes| == capacity {
          bytes := bytes[1..];
        }
        bytes := bytes + [data[i]];
        i := i + 1;
      }
      assert data[..i] == data;
    }

    // What is published is a function of the whole stream, with every credential byte starred.
    method Diagnostics() returns (text: Bytes)
      requires Valid()
      requires limit + overlap <= USIZE_MAX || |written| <= USIZE_MAX
      ensures limit == 0 ==> text == []
      ensures limit > 0 ==> Publishes(written, credentials, limit, text)
      ensures |bytes| <= limit + overlap
    {
      hide Masked, Publishes;
      var raw := bytes;
      var safe := Redact(raw, credentials);
      var start := if |safe| <= limit then 0 else |safe| - limit;
      text := safe[start..];
      if limit > 0 {
        PublishedIs(written, |written| - |raw|, credentials, limit, overlap, safe, text);
      }
    }
  }

  // The credential forms of the environment and the longest length, or none when there are too many.
  method Collect(env: seq<Variable>, isCredential: string -> bool) returns (r: Option<(seq<Bytes>, nat)>)
    ensures r.None? <==> TooMany(Secrets(env, isCredential))
    ensures r.Some? ==> r.value.0 == Forms(Secrets(env, isCredential)) && forall c <- r.value.0 :: 0 < |c| <= r.value.1
  {
    hide *;
    ghost var secrets := Secrets(env, isCredential);
    var forms: seq<Bytes>, total, longest := [], 0, 0;
    var i := 0;
    ghost var taken: seq<Bytes> := [];
    assert env[0..] == env;
    NothingTaken();
    while i < |env|
      invariant 0 <= i <= |env|
      invariant secrets == taken + Secrets(env[i..], isCredential)
      invariant forms == Forms(taken) && total == TotalLength(forms) && !TooMany(taken)
      invariant forall c <- forms :: 0 < |c| <= longest
    {
      var name, value := env[i].name, env[i].value;
      SecretsNext(env[i..], isCredential);
      assert env[i..][1..] == env[i + 1..];
      i := i + 1;
      if !isCredential(name) || value == [] {
        continue;
      }
      ghost var rest := Secrets(env[i..], isCredential);
      assert taken + ([value] + rest) == taken + [value] + rest;
      TakeOne(taken, value);
      if |value| > MAX_FORM_BYTES {
        MoreIsTooMany(taken + [value], rest);
        return None;
      }
      var raw := AddForm(forms, value);
      var both := AddForm(raw, Escape(value));
      total := total + (if value in forms then 0 else |value|) + (if Escape(value) in raw then 0 else |Escape(value)|);
      if |both| > MAX_FORMS || total > MAX_FORM_BYTES {
        MoreIsTooMany(taken + [value], rest);
        return None;
      }
      longest := Longest(Longest(longest, value), Escape(value));
      AddedIn(forms, value);
      AddedIn(raw, Escape(value));
      EscapeLength(value);
      forms := both;
      taken := taken + [value];
    }
    NoSecrets(env[i..], isCredential);
    assert secrets == taken + [] == taken;
    return Some((forms, longest));
  }

  // Masking in place, one occurrence or prefix at a time.
  method Redact(raw: Bytes, credentials: seq<Bytes>) returns (safe: Bytes)
    requires forall c <- credentials :: c != []
    ensures |safe| == |raw|
    ensures forall i :: 0 <= i < |raw| ==> safe[i] == if Masked(raw, credentials, i) then STAR else raw[i]
  {
    safe := raw;
    var k := 0;
    while k < |credentials|
      invariant 0 <= k <= |credentials| && |safe| == |raw|
      invariant forall i :: 0 <= i < |raw| ==> safe[i] == if Masked(raw, credentials[..k], i) then STAR else raw[i]
    {
      assert credentials[k] in credentials;
      safe := RedactOne(raw, safe, credentials[k]);
      forall i | 0 <= i < |raw|
        ensures Masked(raw, credentials[..k + 1], i) <==>
          Masked(raw, credentials[..k], i) || MaskedBy(raw, credentials[k], i)
      {
        assert credentials[..k + 1] == credentials[..k] + [credentials[k]];
      }
      k := k + 1;
    }
    assert credentials[..k] == credentials;
  }

  method RedactOne(raw: Bytes, was: Bytes, credential: Bytes) returns (safe: Bytes)
    requires |was| == |raw| && credential != []
    ensures |safe| == |raw|
    ensures forall i :: 0 <= i < |raw| ==> safe[i] == if MaskedBy(raw, credential, i) then STAR else was[i]
  {
    hide Occurs, Unfinished;
    safe := was;
    var o := 0;
    while o + |credential| <= |raw|
      invariant 0 <= o <= |raw| && |safe| == |raw|
      invariant forall i :: 0 <= i < |raw| ==> safe[i] == if InOccurrence(raw, credential, o, i) then STAR else was[i]
    {
      OccurrenceHere(raw, credential, o);
      if raw[o..o + |credential|] == credential {
        safe := Fill(safe, o, o + |credential|);
      }
      o := o + 1;
    }
    NoneBeyond(raw, credential, o);
    ghost var masked := safe;
    var n := 1;
    while n < |credential| && n < |raw| + 1
      invariant 1 <= n <= |raw| + 1 && n <= |credential| && |safe| == |raw|
      invariant forall i :: 0 <= i < |raw| ==>
        safe[i] == if InUnfinished(raw, credential, n, i) then STAR else masked[i]
    {
      UnfinishedHere(raw, credential, n);
      if raw[|raw| - n..] == credential[..n] {
        safe := Fill(safe, |raw| - n, |raw|);
      }
      n := n + 1;
    }
    NoLonger(raw, credential, n);
  }

  function Fill(s: Bytes, from: nat, to: nat): (r: Bytes)
    requires from <= to <= |s|
    ensures |r| == |s|
    ensures forall i :: 0 <= i < |s| ==> r[i] == if from <= i < to then STAR else s[i]
  {
    s[..from] + seq(to - from, _ => STAR) + s[to..]
  }

  lemma OccurrenceHere(w: Bytes, c: Bytes, o: nat)
    requires o + |c| <= |w|
    ensures forall i ::
      InOccurrence(w, c, o + 1, i) <==> InOccurrence(w, c, o, i) || (o <= i < o + |c| && w[o..o + |c|] == c)
  {
    forall i | InOccurrence(w, c, o + 1, i)
      ensures InOccurrence(w, c, o, i) || (o <= i < o + |c| && w[o..o + |c|] == c)
    {
      var at: nat :| at < o + 1 && at <= i < at + |c| && Occurs(w, c, at);
      if at < o {
        assert InOccurrence(w, c, o, i);
      }
    }
    forall i | InOccurrence(w, c, o, i) || (o <= i < o + |c| && w[o..o + |c|] == c)
      ensures InOccurrence(w, c, o + 1, i)
    {
      if InOccurrence(w, c, o, i) {
        var at: nat :| at < o && at <= i < at + |c| && Occurs(w, c, at);
        assert at < o + 1 && Occurs(w, c, at);
      } else {
        assert Occurs(w, c, o);
      }
    }
  }

  lemma NoneBeyond(w: Bytes, c: Bytes, o: nat)
    requires o <= |w| && o + |c| > |w|
    ensures forall i :: InOccurrence(w, c, |w| + 1, i) <==> InOccurrence(w, c, o, i)
  {
    forall i | InOccurrence(w, c, |w| + 1, i) ensures InOccurrence(w, c, o, i) {
      var at: nat :| at < |w| + 1 && at <= i < at + |c| && Occurs(w, c, at);
      assert at < o;
    }
    forall i | InOccurrence(w, c, o, i) ensures InOccurrence(w, c, |w| + 1, i) {
      var at: nat :| at < o && at <= i < at + |c| && Occurs(w, c, at);
      assert at < |w| + 1;
    }
  }

  lemma UnfinishedHere(w: Bytes, c: Bytes, n: nat)
    requires 1 <= n < |c| && n <= |w|
    ensures forall i ::
      InUnfinished(w, c, n + 1, i) <==> InUnfinished(w, c, n, i) || (|w| - n <= i && w[|w| - n..] == c[..n])
  {
    forall i | InUnfinished(w, c, n + 1, i)
      ensures InUnfinished(w, c, n, i) || (|w| - n <= i && w[|w| - n..] == c[..n])
    {
      var at: nat :| at < n + 1 && |w| - at <= i && Unfinished(w, c, at);
      if at < n {
        assert InUnfinished(w, c, n, i);
      }
    }
    forall i | InUnfinished(w, c, n, i) || (|w| - n <= i && w[|w| - n..] == c[..n])
      ensures InUnfinished(w, c, n + 1, i)
    {
      if InUnfinished(w, c, n, i) {
        var at: nat :| at < n && |w| - at <= i && Unfinished(w, c, at);
        assert at < n + 1 && Unfinished(w, c, at);
      } else {
        assert Unfinished(w, c, n);
      }
    }
  }

  lemma NoLonger(w: Bytes, c: Bytes, n: nat)
    requires 1 <= n <= |c| && (n == |c| || n > |w|)
    ensures forall i :: InUnfinished(w, c, |c|, i) <==> InUnfinished(w, c, n, i)
  {
    forall i | InUnfinished(w, c, |c|, i) ensures InUnfinished(w, c, n, i) {
      var at: nat :| at < |c| && |w| - at <= i && Unfinished(w, c, at);
      assert at < n;
    }
    forall i | InUnfinished(w, c, n, i) ensures InUnfinished(w, c, |c|, i) {
      var at: nat :| at < n && |w| - at <= i && Unfinished(w, c, at);
      assert at < |c|;
    }
  }

  lemma PublishedIs(w: Bytes, d: nat, credentials: seq<Bytes>, limit: nat, overlap: nat, safe: Bytes, text: Bytes)
    requires d <= |w| && (d == 0 || |w| - d == limit + overlap)
    requires forall c <- credentials :: 0 < |c| <= overlap
    requires |safe| == |w| - d && text == safe[(if |safe| <= limit then 0 else |safe| - limit)..]
    requires forall i :: 0 <= i < |safe| ==> safe[i] == if Masked(w[d..], credentials, i) then STAR else w[d..][i]
    ensures Publishes(w, credentials, limit, text)
  {
    hide Masked;
    forall i | |w| - |text| <= i < |w|
      ensures text[i - (|w| - |text|)] == if Masked(w, credentials, i) then STAR else w[i]
    {
      WindowSuffices(w, d, credentials, overlap, i);
      assert text[i - (|w| - |text|)] == safe[i - d];
    }
  }

  // Held bytes suffice: a published byte is masked in the held tail exactly when it is masked in the
  // whole stream, also by a credential that starts before the published part.
  lemma WindowSuffices(w: Bytes, d: nat, credentials: seq<Bytes>, overlap: nat, i: int)
    requires d <= i < |w| && (d == 0 || i - d >= overlap)
    requires forall c <- credentials :: 0 < |c| <= overlap
    ensures Masked(w[d..], credentials, i - d) <==> Masked(w, credentials, i)
  {
    forall c | c in credentials
      ensures MaskedBy(w[d..], c, i - d) <==> MaskedBy(w, c, i)
    {
      OneCredential(w, d, c, i);
    }
  }

  lemma OneCredential(w: Bytes, d: nat, c: Bytes, i: int)
    requires d <= i < |w| && (d == 0 || i - d >= |c|)
    ensures MaskedBy(w[d..], c, i - d) <==> MaskedBy(w, c, i)
  {
    var r := w[d..];
    forall o: nat ensures Occurs(r, c, o) <==> Occurs(w, c, o + d) {
      if o + |c| <= |r| { assert r[o..o + |c|] == w[o + d..o + d + |c|]; }
    }
    forall n: nat | n <= |r| ensures Unfinished(r, c, n) <==> Unfinished(w, c, n) {
      assert r[|r| - n..] == w[|w| - n..];
    }
    if InOccurrence(w, c, |w| + 1, i) {
      var o: nat :| o < |w| + 1 && o <= i < o + |c| && Occurs(w, c, o);
      assert Occurs(r, c, o - d);
    }
    if InOccurrence(r, c, |r| + 1, i - d) {
      var o: nat :| o < |r| + 1 && o <= i - d < o + |c| && Occurs(r, c, o);
      assert Occurs(w, c, o + d);
    }
    if InUnfinished(w, c, |c|, i) {
      var n: nat :| n < |c| && |w| - n <= i && Unfinished(w, c, n);
      assert n <= |r|;
      assert Unfinished(r, c, n);
    }
    if InUnfinished(r, c, |c|, i - d) {
      var n: nat :| n < |c| && |r| - n <= i - d && Unfinished(r, c, n);
      assert Unfinished(w, c, n);
    }
  }

  // ---- collecting the forms

  function Longest(n: nat, form: Bytes): (r: nat)
    ensures r >= n && r >= |form| && (r == n || r == |form|)
  {
    if |form| > n then |form| else n
  }

  lemma EscapeLength(s: Bytes)
    ensures |Escape(s)| >= |s|
  {}

  lemma NothingTaken()
    ensures Forms([]) == [] && TotalLength([]) == 0 && !TooMany([]) && Distinct([])
  {}

  lemma NoSecrets(env: seq<Variable>, isCredential: string -> bool)
    requires env == []
    ensures Secrets(env, isCredential) == []
  {}

  lemma SecretsNext(env: seq<Variable>, isCredential: string -> bool)
    requires env != []
    ensures Secrets(env, isCredential)
      == if isCredential(env[0].name) && env[0].value != [] then [env[0].value] + Secrets(env[1..], isCredential)
         else Secrets(env[1..], isCredential)
  {}

  lemma AddedIn(forms: seq<Bytes>, form: Bytes)
    ensures forall f :: f in AddForm(forms, form) <==> f in forms || f == form
    ensures Distinct(forms) ==> Distinct(AddForm(forms, form))
  {}

  lemma FormsOneMore(secrets: seq<Bytes>, s: Bytes)
    ensures Forms(secrets + [s]) == AddForm(AddForm(Forms(secrets), s), Escape(s))
  {
    assert (secrets + [s])[..|secrets|] == secrets;
  }

  lemma AddedLength(forms: seq<Bytes>, form: Bytes)
    ensures TotalLength(AddForm(forms, form)) == TotalLength(forms) + (if form in forms then 0 else |form|)
    ensures |AddForm(forms, form)| >= |forms|
  {
    if form !in forms {
      assert (forms + [form])[..|forms|] == forms;
    }
  }

  // One more secret: what it adds, and when it is one too many.
  lemma TakeOne(taken: seq<Bytes>, s: Bytes)
    ensures var forms := Forms(taken);
      var raw := AddForm(forms, s);
      var both := AddForm(raw, Escape(s));
      && Forms(taken + [s]) == both
      && TotalLength(both) ==
        TotalLength(forms) + (if s in forms then 0 else |s|) + (if Escape(s) in raw then 0 else |Escape(s)|)
      && (TooMany(taken + [s]) <==>
        TooLong(taken) || |s| > MAX_FORM_BYTES || |both| > MAX_FORMS || TotalLength(both) > MAX_FORM_BYTES)
      && (TooMany(taken) ==> TooMany(taken + [s]))
      && (TooLong(taken) ==> TooMany(taken))
  {
    hide Forms, AddForm, Escape, TotalLength;
    FormsOneMore(taken, s);
    AddedLength(Forms(taken), s);
    AddedLength(AddForm(Forms(taken), s), Escape(s));
    TooLongOneMore(taken, s);
    hide TooLong;
  }

  lemma TooLongOneMore(taken: seq<Bytes>, s: Bytes)
    ensures TooLong(taken + [s]) <==> TooLong(taken) || |s| > MAX_FORM_BYTES
  {
    if t :| t in taken && |t| > MAX_FORM_BYTES {
      assert t in taken + [s];
    }
    if |s| > MAX_FORM_BYTES {
      assert s in taken + [s];
    }
  }

  // Once there is too much, more secrets do not help.
  lemma {:induction false} MoreIsTooMany(secrets: seq<Bytes>, more: seq<Bytes>)
    requires TooMany(secrets)
    ensures TooMany(secrets + more)
    decreases |more|
  {
    hide *;
    if more == [] {
      assert secrets + more == secrets;
    } else {
      TakeOne(secrets, more[0]);
      MoreIsTooMany(secrets + [more[0]], more[1..]);
      assert secrets + more == secrets + [more[0]] + more[1..];
    }
  }
}
