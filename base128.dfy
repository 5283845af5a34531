/** The base-128 arc accumulation of X.690 sections 8.19 and 8.20, as the
    object identifier and relative object identifier loops perform it: each
    octet shifts the pending arc left by seven bits and adds its low seven
    bits; an octet whose top bit is clear ends the arc. */
module Base128 {
  import opened Octets

  /** The loop's state after some prefix of the octets: the arcs emitted so
      far and the arc still being accumulated (`build`). */
  datatype ArcState = ArcState(arcs: seq<nat>, build: nat)

  /** One iteration of the loop body on octet v. */
  function Feed(st: ArcState, v: byte): ArcState
  {
    var build := st.build * 128 + v % 128;
    if v < 128 then ArcState(st.arcs + [build], 0) else ArcState(st.arcs, build)
  }

  /** The state after feeding every octet of s, starting from no arcs and
      `build == 0`. */
  function Scan(s: seq<byte>): ArcState
  {
    if s == [] then ArcState([], 0) else Feed(Scan(s[..|s| - 1]), s[|s| - 1])
  }

  /** The arcs the loop emits for s. */
  function Arcs(s: seq<byte>): seq<nat>
  {
    Scan(s).arcs
  }

  /** How many octets of s have their top bit clear (end an arc). */
  function Terminators(s: seq<byte>): nat
  {
    if s == [] then 0 else Terminators(s[..|s| - 1]) + (if s[|s| - 1] < 128 then 1 else 0)
  }

  /** The leading octets of a multi-octet arc: the base-128 digits of m,
      most significant first, each with the continuation bit set. */
  function Leading(m: nat): (s: seq<byte>)
    requires m > 0
    ensures |s| >= 1
    decreases m
  {
    if m < 128 then [m + 128] else Leading(m / 128) + [m % 128 + 128]
  }

  /** The base-128 encoding of one arc: continuation octets, then a final
      octet with the top bit clear. */
  function EncodeArc(n: nat): (s: seq<byte>)
    ensures |s| >= 1 && s[|s| - 1] < 128
  {
    if n < 128 then [n] else Leading(n / 128) + [n % 128]
  }

  /** The concatenated encodings of a list of arcs. */
  function EncodeArcs(arcs: seq<nat>): seq<byte>
  {
    if arcs == [] then [] else EncodeArcs(arcs[..|arcs| - 1]) + EncodeArc(arcs[|arcs| - 1])
  }

  /** One arc is emitted per octet whose top bit is clear, and nothing else. */
  lemma {:induction false} ArcsCount(s: seq<byte>)
    ensures |Arcs(s)| == Terminators(s)
  {
    if s != [] {
      ArcsCount(s[..|s| - 1]);
    }
  }

  /** No arc at all is emitted exactly when every octet has its top bit set. */
  lemma {:induction false} ArcsEmptyIff(s: seq<byte>)
    ensures Arcs(s) == [] <==> forall i :: 0 <= i < |s| ==> s[i] >= 128
  {
    ArcsCount(s);
    TerminatorsZeroIff(s);
  }

  lemma {:induction false} TerminatorsZeroIff(s: seq<byte>)
    ensures Terminators(s) == 0 <==> forall i :: 0 <= i < |s| ==> s[i] >= 128
  {
    if s != [] {
      var init := s[..|s| - 1];
      TerminatorsZeroIff(init);
      assert forall i :: 0 <= i < |init| ==> init[i] == s[i];
    }
  }

  /** Octets after the last arc-ending octet are never emitted: a tail whose
      octets all carry the continuation bit leaves the arcs unchanged. */
  lemma {:induction false} UnterminatedTailIgnored(s: seq<byte>, t: seq<byte>)
    requires forall i :: 0 <= i < |t| ==> t[i] >= 128
    ensures Arcs(s + t) == Arcs(s)
  {
    if t != [] {
      var t' := t[..|t| - 1];
      assert (s + t)[..|s + t| - 1] == s + t';
      UnterminatedTailIgnored(s, t');
    } else {
      assert s + t == s;
    }
  }

  /** Feeding the leading octets of m into a state with no pending arc
      leaves m pending and emits nothing. */
  lemma {:induction false} LeadingPending(p: seq<byte>, m: nat)
    requires m > 0 && Scan(p).build == 0
    ensures Scan(p + Leading(m)) == ArcState(Scan(p).arcs, m)
    decreases m
  {
    if m < 128 {
      assert (p + [m + 128])[..|p|] == p;
    } else {
      var q := p + Leading(m / 128);
      var last: byte := m % 128 + 128;
      LeadingPending(p, m / 128);
      AppendAssoc(p, Leading(m / 128), [last]);
      assert (q + [last])[..|q|] == q;
      assert Scan(q + [last]) == Feed(ArcState(Scan(p).arcs, m / 128), last);
      assert last % 128 == m % 128 && last >= 128;
      assert (m / 128) * 128 + m % 128 == m;
    }
  }

  /** Feeding one encoded arc into a state with no pending arc emits
      exactly that arc. */
  lemma {:induction false} EncodeArcEmits(p: seq<byte>, n: nat)
    requires Scan(p).build == 0
    ensures Scan(p + EncodeArc(n)) == ArcState(Scan(p).arcs + [n], 0)
  {
    if n < 128 {
      assert (p + [n])[..|p|] == p;
    } else {
      var m := n / 128;
      var last: byte := n % 128;
      LeadingPending(p, m);
      var q := p + Leading(m);
      assert EncodeArc(n) == Leading(m) + [last];
      AppendAssoc(p, Leading(m), [last]);
      assert (q + [last])[..|q|] == q;
      assert Scan(q + [last]) == Feed(ArcState(Scan(p).arcs, m), last);
      assert m * 128 + last % 128 == n;
    }
  }

  /** Decoding the encoding of a list of arcs gives back that list, with no
      arc left pending. */
  lemma {:induction false} ArcsRoundTrip(arcs: seq<nat>)
    ensures Scan(EncodeArcs(arcs)) == ArcState(arcs, 0)
  {
    if arcs != [] {
      var init, last := arcs[..|arcs| - 1], arcs[|arcs| - 1];
      var p := EncodeArcs(init);
      ArcsRoundTrip(init);
      assert Scan(p) == ArcState(init, 0);
      EncodeArcEmits(p, last);
      assert EncodeArcs(arcs) == p + EncodeArc(last);
      assert init + [last] == arcs;
    }
  }

  /** 34 03 reads as the arcs 52 and 3. */
  lemma ShortArcsExample()
    ensures Arcs([0x34, 0x03]) == [52, 3]
  {
    var d: seq<byte> := [0x34, 0x03];
    assert d[..1] == [0x34] && [0x34][..0] == [];
    assert Scan(d[..1]) == ArcState([52], 0);
  }

  /** The subidentifiers 180 and 3 encode as 81 34 03. */
  lemma EncodeArcsExample()
    ensures EncodeArcs([180, 3]) == [0x81, 0x34, 0x03]
  {
    assert EncodeArc(180) == [0x81, 0x34] by {
      assert Leading(1) == [0x81];
    }
    var one: seq<nat> := [180];
    assert one[..|one| - 1] == [];
    var arcs: seq<nat> := [180, 3];
    assert arcs[..|arcs| - 1] == one;
  }

  /** The octets 86 48 86 F7 0D accumulate to the arcs 840 and 113549. */
  lemma RsaArcsExample()
    ensures Arcs([0x86, 0x48, 0x86, 0xF7, 0x0D]) == [840, 113549]
  {
    var s: seq<byte> := [0x86, 0x48, 0x86, 0xF7, 0x0D];
    assert Scan(s[..1]) == ArcState([], 6);
    assert s[..2][..1] == s[..1];
    assert Scan(s[..2]) == ArcState([840], 0);
    assert s[..3][..2] == s[..2];
    assert Scan(s[..3]) == ArcState([840], 6);
    assert s[..4][..3] == s[..3];
    assert Scan(s[..4]) == ArcState([840], 887);
    assert s[..4] == s[..|s| - 1];
  }
}
