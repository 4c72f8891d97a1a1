/**
 The assumptions about JSON can be met: an encoding that prints every value as a string of marks
 that no other value has, and reads back exactly what it prints.
 */
module JsonWitness {
  import opened Prelude
  import opened AnchorRecord
  import opened AnchorCodec
  import Base64

  type Bits = seq<bool>

  // ---------- numbers and texts as marks, one after the other ----------

  /** A number in unary, with its end. */
  function Unary(n: nat): Bits {
    if n == 0 then [false] else [true] + Unary(n - 1)
  }

  lemma {:induction false} UnaryStarts(m: nat, x: Bits, n: nat, y: Bits)
    requires Unary(m) + x == Unary(n) + y
    ensures m == n && x == y
  {
    assert (Unary(m) + x)[0] == (m > 0) && (Unary(n) + y)[0] == (n > 0);
    if m == 0 {
      assert (Unary(m) + x)[1..] == x && (Unary(n) + y)[1..] == y;
    } else {
      assert (Unary(m) + x)[1..] == Unary(m - 1) + x && (Unary(n) + y)[1..] == Unary(n - 1) + y;
      UnaryStarts(m - 1, x, n - 1, y);
    }
  }

  /** The characters after their number. */
  function Chars(s: string): Bits {
    if s == "" then [] else Unary(s[0] as nat) + Chars(s[1..])
  }

  function Text(s: string): Bits {
    Unary(|s|) + Chars(s)
  }

  lemma {:induction false} CharsStart(s: string, x: Bits, t: string, y: Bits)
    requires |s| == |t| && Chars(s) + x == Chars(t) + y
    ensures s == t && x == y
  {
    if s == "" {
      assert Chars(s) + x == x && Chars(t) + y == y;
    } else {
      assert Chars(s) + x == Unary(s[0] as nat) + (Chars(s[1..]) + x);
      assert Chars(t) + y == Unary(t[0] as nat) + (Chars(t[1..]) + y);
      UnaryStarts(s[0] as nat, Chars(s[1..]) + x, t[0] as nat, Chars(t[1..]) + y);
      CharsStart(s[1..], x, t[1..], y);
      assert s == [s[0]] + s[1..] && t == [t[0]] + t[1..];
    }
  }

  lemma TextStarts(s: string, x: Bits, t: string, y: Bits)
    requires Text(s) + x == Text(t) + y
    ensures s == t && x == y
  {
    assert Text(s) + x == Unary(|s|) + (Chars(s) + x) && Text(t) + y == Unary(|t|) + (Chars(t) + y);
    UnaryStarts(|s|, Chars(s) + x, |t|, Chars(t) + y);
    CharsStart(s, x, t, y);
  }

  /** An integer as a natural number: the negative ones are the odd ones. */
  function Folded(n: int): nat {
    if n < 0 then -2 * n - 1 else 2 * n
  }

  function FoldedOption(n: Option<int>): nat {
    if n.None? then 0 else Folded(n.value) + 1
  }

  lemma FoldedInjective(m: Option<int>, n: Option<int>)
    requires FoldedOption(m) == FoldedOption(n)
    ensures m == n
  {
  }

  /** Numbers and texts, one after the other. */
  function Marks(ns: seq<nat>, ts: seq<string>): Bits {
    if ns != [] then Unary(ns[0]) + Marks(ns[1..], ts)
    else if ts != [] then Text(ts[0]) + Marks(ns, ts[1..])
    else []
  }

  lemma {:induction false} MarksInjective(ms: seq<nat>, ss: seq<string>, ns: seq<nat>, ts: seq<string>)
    requires |ms| == |ns| && |ss| == |ts| && Marks(ms, ss) == Marks(ns, ts)
    ensures ms == ns && ss == ts
    decreases |ms| + |ss|
  {
    if ms != [] {
      UnaryStarts(ms[0], Marks(ms[1..], ss), ns[0], Marks(ns[1..], ts));
      MarksInjective(ms[1..], ss, ns[1..], ts);
      assert ms == [ms[0]] + ms[1..] && ns == [ns[0]] + ns[1..];
    } else if ss != [] {
      TextStarts(ss[0], Marks(ms, ss[1..]), ts[0], Marks(ns, ts[1..]));
      MarksInjective(ms, ss[1..], ns, ts[1..]);
      assert ss == [ss[0]] + ss[1..] && ts == [ts[0]] + ts[1..];
    }
  }

  // ---------- the three encodings ----------

  function EvidenceMarks(e: Evidence): Bits {
    Marks([FoldedOption(Some(e.epoch)), FoldedOption(e.pendingEpoch), if e.bootstrap then 1 else 0],
          [e.format, e.token, e.pendingId])
  }

  function TransitionMarks(t: Transition): Bits {
    Marks([t.generation], [t.anchorId, t.detail])
  }

  function ReceiptMarks(r: Receipt): Bits {
    Marks([r.generation], [r.detail])
  }

  function Bytes(b: Bits): (r: seq<Base64.Byte>)
    ensures |r| == |b| + 1
  {
    seq(|b| + 1, i requires 0 <= i < |b| + 1 => if i < |b| && b[i] then 1 else 0)
  }

  function Braced(b: Bits): (r: string)
    ensures LooksLikeObject(r) && |r| == |b| + 2
  {
    "{" + seq(|b|, i requires 0 <= i < |b| => if b[i] then '1' else '0') + "}"
  }

  lemma BytesInjective(a: Bits, b: Bits)
    requires Bytes(a) == Bytes(b)
    ensures a == b
  {
    assert |Bytes(a)| == |Bytes(b)|;
    forall i | 0 <= i < |a| ensures a[i] == b[i] {
      assert Bytes(a)[i] == Bytes(b)[i];
    }
  }

  lemma BracedInjective(a: Bits, b: Bits)
    requires Braced(a) == Braced(b)
    ensures a == b
  {
    assert |Braced(a)| == |Braced(b)|;
    forall i | 0 <= i < |a| ensures a[i] == b[i] {
      assert Braced(a)[i + 1] == Braced(b)[i + 1];
    }
  }

  lemma EvidenceInjective(a: Evidence, b: Evidence)
    requires Bytes(EvidenceMarks(a)) == Bytes(EvidenceMarks(b))
    ensures a == b
  {
    BytesInjective(EvidenceMarks(a), EvidenceMarks(b));
    var ms, ns := [FoldedOption(Some(a.epoch)), FoldedOption(a.pendingEpoch), if a.bootstrap then 1 else 0],
                  [FoldedOption(Some(b.epoch)), FoldedOption(b.pendingEpoch), if b.bootstrap then 1 else 0];
    var ss, ts := [a.format, a.token, a.pendingId], [b.format, b.token, b.pendingId];
    MarksInjective(ms, ss, ns, ts);
    assert ms[0] == ns[0] && ms[1] == ns[1] && ms[2] == ns[2];
    assert ss[0] == ts[0] && ss[1] == ts[1] && ss[2] == ts[2];
    FoldedInjective(Some(a.epoch), Some(b.epoch));
    FoldedInjective(a.pendingEpoch, b.pendingEpoch);
  }

  lemma TransitionInjective(a: Transition, b: Transition)
    requires Braced(TransitionMarks(a)) == Braced(TransitionMarks(b))
    ensures a == b
  {
    BracedInjective(TransitionMarks(a), TransitionMarks(b));
    MarksInjective([a.generation], [a.anchorId, a.detail], [b.generation], [b.anchorId, b.detail]);
    assert [a.generation][0] == [b.generation][0];
    var ss, ts := [a.anchorId, a.detail], [b.anchorId, b.detail];
    assert ss[0] == ts[0] && ss[1] == ts[1];
  }

  lemma ReceiptInjective(a: Receipt, b: Receipt)
    requires Braced(ReceiptMarks(a)) == Braced(ReceiptMarks(b))
    ensures a == b
  {
    BracedInjective(ReceiptMarks(a), ReceiptMarks(b));
    MarksInjective([a.generation], [a.detail], [b.generation], [b.detail]);
    assert [a.generation][0] == [b.generation][0] && [a.detail][0] == [b.detail][0];
  }

  /** What a printer prints is read as what it was printed from. */
  ghost function Reader<T(!new), R(!new)>(show: T -> R): R -> Option<T> {
    r => if exists t :: show(t) == r then
      var t :| show(t) == r;
      Some(t)
    else None
  }

  ghost function Marked(): Json {
    Json(e => Bytes(EvidenceMarks(e)), Reader(e => Bytes(EvidenceMarks(e))),
         t => Braced(TransitionMarks(t)), Reader(t => Braced(TransitionMarks(t))),
         r => Braced(ReceiptMarks(r)), Reader(r => Braced(ReceiptMarks(r))))
  }

  /** The laws that the codec and the admission results assume of JSON hold of some encoding. */
  lemma LawsCanBeMet()
    ensures Lawful(Marked())
  {
    var j := Marked();
    hide Marks, Bytes, Braced;
    forall e ensures j.readEvidence(j.printEvidence(e)) == Some(e) && j.printEvidence(e) != [] {
      forall f | j.printEvidence(f) == j.printEvidence(e) ensures f == e {
        EvidenceInjective(f, e);
      }
    }
    forall t ensures j.readTransition(j.printTransition(t)) == Some(t) && LooksLikeObject(j.printTransition(t)) {
      forall u | j.printTransition(u) == j.printTransition(t) ensures u == t {
        TransitionInjective(u, t);
      }
    }
    forall r ensures j.readReceipt(j.printReceipt(r)) == Some(r) && LooksLikeObject(j.printReceipt(r)) {
      forall q | j.printReceipt(q) == j.printReceipt(r) ensures q == r {
        ReceiptInjective(q, r);
      }
    }
  }
}
