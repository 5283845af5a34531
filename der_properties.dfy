/** Properties of the decoder of der/der.go, stated about the functions the
    imperative methods of module Der are proved against: the identifier
    octet fields, the length octets, the framing of an element and of a
    stream of elements, the nesting depth of what is written, and the
    behaviour of each content interpreter, including the ones that are
    surprising but are what the code does. */
module DerProperties {
  import opened Octets
  import opened Base128
  import opened Output
  import opened Der

  /* ---------------- identifier octet ---------------- */

  /** Class bits, form bit and tag number are a partition of the identifier
      octet: they add back up to it. */
  lemma FieldsRecombine(t: byte)
    ensures ClassOf(t) + FormOf(t) + TagOf(t) == t
  {
    assert t == (t / 64) * 64 + ((t % 64) / 32) * 32 + t % 32;
    assert (t / 32) % 2 == (t % 64) / 32;
  }

  /** The dispatch compares the whole identifier octet: an octet of the
      application, context-specific or private class is never interpreted,
      whatever its tag number. */
  lemma NonUniversalIsUnhandled(t: byte)
    requires ClassOf(t) != ClassUniversal
    ensures KindOf(t) == UnhandledType
  {
    assert t >= 64;
  }

  /** Only EXTERNAL, EMBEDDED PDV, SET and SEQUENCE are recognised in the
      constructed form; a universal constructed octet with any other tag
      number is unhandled, and so are the primitive forms of those four, the
      unassigned tag numbers 14 and 15, and the long-form escape 31. */
  lemma ConstructedFormDispatch(t: byte)
    requires ClassOf(t) == ClassUniversal
    ensures FormOf(t) == Composed ==>
              (KindOf(t) != UnhandledType <==> TagOf(t) in {TypeExternal, TypeEmbeddedPDV, TypeSequence, TypeSet})
    ensures FormOf(t) == Primitive ==>
              (KindOf(t) == UnhandledType <==> TagOf(t) in {TypeExternal, TypeEmbeddedPDV, 0x0E, 0x0F, TypeSequence, TypeSet, TypeIsLongFormTag})
  {
    assert t < 64;
    assert FormOf(t) == Composed <==> t >= 32;
  }

  /** A context-specific constructed [0] is written as a hex dump under the
      label UNHANDLED-TAG=00. */
  lemma ContextSpecificExample()
    ensures KindOf(0xA0) == UnhandledType
    ensures ClassLabel(0xA0) == "CONTEXT-SPECIFIC " && FormLabel(0xA0) == "COMPOSED "
    ensures UnhandledLabel(0xA0) == "UNHANDLED-TAG=00"
  {
  }

  /* ---------------- length octets ---------------- */

  /** Short form: an octet below 128 is the length itself. */
  lemma LengthShortForm(b: byte, rest: seq<byte>)
    requires b < 128
    ensures LengthOf([b] + rest) == Ok(LengthPrefix(b, rest))
  {
    assert ([b] + rest)[1..] == rest;
  }

  /** Long form: the decode fails exactly when fewer octets follow than the
      first octet's low seven bits announce; 0x80 announces none and reads
      as length zero. */
  lemma LengthLongForm(data: seq<byte>)
    requires |data| >= 1 && data[0] >= 128
    ensures LengthOf(data).Err? <==> |data| - 1 < data[0] - 128
    ensures LengthOf(data).Err? ==> LengthOf(data).error == LengthUnsatisfiable(data[0] - 128)
    ensures data[0] == 128 ==> LengthOf(data) == Ok(LengthPrefix(0, data[1..]))
  {
    if data[0] == 128 {
      assert data[1..1] == [];
    }
  }

  /** The DER length octets of n decode back to n and leave whatever follows
      them untouched. */
  lemma LengthRoundTrip(n: nat, rest: seq<byte>)
    requires MinimalOctets(n) <= 127
    ensures LengthOf(EncodeLength(n) + rest) == Ok(LengthPrefix(n, rest))
  {
    var data := EncodeLength(n) + rest;
    if n < 128 {
      LengthShortForm(n, rest);
    } else {
      var k := MinimalOctets(n);
      var digits := BigEndianBytes(n, k);
      assert data == [128 + k] + digits + rest;
      assert data[1..1 + k] == digits;
      assert data[1 + k..] == rest;
      MinimalOctetsHold(n);
      BigEndianRoundTrip(n, k);
    }
  }

  /** Long form with any number of length octets, minimal or not (82 00 05
      is accepted as 5): k octets holding n big-endian decode to n. */
  lemma LengthAnyLongForm(n: nat, k: nat, rest: seq<byte>)
    requires 1 <= k <= 127 && n < Pow256(k)
    ensures LengthOf([128 + k] + BigEndianBytes(n, k) + rest) == Ok(LengthPrefix(n, rest))
  {
    var data := [128 + k] + BigEndianBytes(n, k) + rest;
    assert data[1..1 + k] == BigEndianBytes(n, k);
    assert data[1 + k..] == rest;
    BigEndianRoundTrip(n, k);
  }

  /** The length octets are read from the front: octets appended after them
      only extend the rest. */
  lemma LengthIgnoresTail(data: seq<byte>, tail: seq<byte>)
    requires |data| >= 1 && LengthOf(data).Ok?
    ensures LengthOf(data + tail)
         == Ok(LengthPrefix(LengthOf(data).value.length, LengthOf(data).value.rest + tail))
  {
    var whole := data + tail;
    assert whole[0] == data[0];
    if data[0] >= 128 {
      var count := data[0] - 128;
      assert whole[1..1 + count] == data[1..1 + count];
      assert whole[1 + count..] == data[1 + count..] + tail;
    } else {
      assert whole[1..] == data[1..] + tail;
    }
  }

  /** DecodeLength, the loop the source runs, agrees with the length octets
      as encoded by EncodeLength. */
  method DecodeEncodedLength(n: nat, rest: seq<byte>) returns (r: Outcome<LengthPrefix>)
    requires MinimalOctets(n) <= 127
    ensures r == Ok(LengthPrefix(n, rest))
  {
    LengthRoundTrip(n, rest);
    r := DecodeLength(EncodeLength(n) + rest);
  }

  /* ---------------- framing ---------------- */

  /** Too little input and a long-form tag number are refused before anything
      is written. */
  lemma FramingErrorsWriteNothing(cs: Charsets, data: seq<byte>, depth: nat)
    requires |data| < 2 || TagOf(data[0]) == TypeIsLongFormTag
    ensures ElementOut(cs, data, depth).out == []
    ensures ElementOut(cs, data, depth).outcome
         == if |data| < 2 then Err(ShortRead(|data|)) else Err(LongFormTag)
  {
  }

  /** A decoded element consists of the identifier octet, the length octets,
      exactly as many content octets as the length says, and then the octets
      returned as the rest. */
  lemma ElementFraming(cs: Charsets, data: seq<byte>, depth: nat)
    requires ElementOut(cs, data, depth).outcome.Ok?
    ensures |data| >= 2 && LengthOf(data[1..]).Ok?
    ensures LengthOf(data[1..]).value.length <= |LengthOf(data[1..]).value.rest|
    ensures ElementOut(cs, data, depth).outcome.value
         == LengthOf(data[1..]).value.rest[LengthOf(data[1..]).value.length..]
  {
    var p := LengthOf(data[1..]).value;
    assert ElementOut(cs, data, depth).outcome == BodyOut(cs, data[0], p.length, p.rest, depth).outcome;
  }

  /** Content shorter than its length fails with the truncation error
      after the class and form labels, and does not panic. */
  lemma TruncatedContentFails(cs: Charsets, data: seq<byte>, depth: nat)
    requires |data| >= 2 && TagOf(data[0]) != TypeIsLongFormTag && LengthOf(data[1..]).Ok?
    requires LengthOf(data[1..]).value.length > |LengthOf(data[1..]).value.rest|
    ensures ElementOut(cs, data, depth)
         == Step(At(depth, [Text(ClassLabel(data[0])), Text(FormLabel(data[0]))]),
                 Err(ShortContent(LengthOf(data[1..]).value.length, |LengthOf(data[1..]).value.rest|)))
  {
  }

  /** The element at the start of data is decoded the same way whatever
      follows it; only the rest grows. */
  lemma ElementIgnoresTail(cs: Charsets, data: seq<byte>, tail: seq<byte>, depth: nat)
    requires ElementOut(cs, data, depth).outcome.Ok?
    ensures ElementOut(cs, data + tail, depth)
         == Step(ElementOut(cs, data, depth).out, Ok(ElementOut(cs, data, depth).outcome.value + tail))
  {
    ElementFraming(cs, data, depth);
    var whole := data + tail;
    var p := LengthOf(data[1..]).value;
    assert whole[1..] == data[1..] + tail;
    LengthIgnoresTail(data[1..], tail);
    var rest := p.rest + tail;
    assert rest[..p.length] == p.rest[..p.length];
    assert rest[p.length..] == p.rest[p.length..] + tail;
    assert BodyOut(cs, data[0], p.length, rest, depth)
        == Step(BodyOut(cs, data[0], p.length, p.rest, depth).out,
                Ok(BodyOut(cs, data[0], p.length, p.rest, depth).outcome.value + tail));
  }

  /** Decoding a concatenation of two element streams: when the first one
      decodes completely, the decode writes the first stream's output, then
      the second's, and ends as the second does. */
  lemma {:induction false} ParseConcat(cs: Charsets, a: seq<byte>, b: seq<byte>, depth: nat)
    requires ParseOut(cs, a, depth).outcome.Ok?
    ensures ParseOut(cs, a + b, depth)
         == Step(ParseOut(cs, a, depth).out + ParseOut(cs, b, depth).out, ParseOut(cs, b, depth).outcome)
    decreases |a|
  {
    if a == [] {
      assert a + b == b;
    } else {
      var e := ElementOut(cs, a, depth);
      var r := e.outcome.value;
      ElementIgnoresTail(cs, a, b, depth);
      assert a + b != [];
      ParseConcat(cs, r, b, depth);
      var tail := ParseOut(cs, r + b, depth);
      assert ParseOut(cs, a + b, depth) == Step(e.out + tail.out, tail.outcome);
      AppendAssoc(e.out, ParseOut(cs, r, depth).out, ParseOut(cs, b, depth).out);
    }
  }

  /* ---------------- nesting depth ---------------- */

  /** Every record of rs is written at depth d or deeper. */
  predicate AtLeast(rs: seq<Record>, d: nat)
  {
    forall i :: 0 <= i < |rs| ==> rs[i].depth >= d
  }

  /** Pieces written at one depth are all at that depth. */
  lemma {:induction false} AtDepth(depth: nat, ps: seq<Piece>)
    ensures forall i :: 0 <= i < |ps| ==> At(depth, ps)[i] == Record(depth, ps[i])
  {
    if ps != [] {
      AtDepth(depth, ps[..|ps| - 1]);
    }
  }

  /** Pieces written at one depth are at least that deep: a convenience
      restating AtDepth in the form the depth lemmas below use. */
  lemma AtLeastAt(depth: nat, ps: seq<Piece>)
    ensures AtLeast(At(depth, ps), depth)
  {
    AtDepth(depth, ps);
  }

  /** The content of a non-constructed element is written at its own depth. */
  lemma LeafDepth(cs: Charsets, t: byte, c: seq<byte>, depth: nat)
    requires !KindOf(t).ConstructedType?
    ensures AtLeast(LeafOut(cs, t, c, depth).out, depth)
  {
    var k := KindOf(t);
    if k.EndOfContentType? || k.BooleanType? || k.BitStringType? || k.NullType? {
      CheckedLeafDepth(cs, t, c, depth);
    } else if k.ObjectIdentifierType? || k.RelativeOidType? || k.UniversalStringType? || k.BmpStringType? {
      ArcOrTextLeafDepth(cs, t, c, depth);
    } else if k.IntegerType? || k.StringType? {
      TextLeafDepth(cs, t, c, depth);
    } else {
      DumpLeafDepth(cs, t, c, depth);
    }
  }

  lemma CheckedLeafDepth(cs: Charsets, t: byte, c: seq<byte>, depth: nat)
    requires KindOf(t).EndOfContentType? || KindOf(t).BooleanType? || KindOf(t).BitStringType? || KindOf(t).NullType?
    ensures AtLeast(LeafOut(cs, t, c, depth).out, depth)
  {
    match KindOf(t)
    case EndOfContentType => AtLeastAt(depth, [Text("END-OF-CONTENT\n")]);
    case BooleanType =>
      AtLeastAt(depth, [Text("BOOLEAN FALSE\n")]);
      AtLeastAt(depth, [Text("BOOLEAN TRUE\n")]);
    case BitStringType =>
      if |c| >= 1 {
        AtLeastAt(depth, [Text("BITSTRING PAD="), Decimal(c[0]), Text(" ")] + OctetsOut(c[1..]) + [Text("\n")]);
      }
    case NullType => AtLeastAt(depth, [Text("NULL\n")]);
  }

  lemma ArcOrTextLeafDepth(cs: Charsets, t: byte, c: seq<byte>, depth: nat)
    requires KindOf(t).ObjectIdentifierType? || KindOf(t).RelativeOidType? || KindOf(t).UniversalStringType? || KindOf(t).BmpStringType?
    ensures AtLeast(LeafOut(cs, t, c, depth).out, depth)
  {
    match KindOf(t)
    case ObjectIdentifierType =>
      if |c| >= 1 {
        AtLeastAt(depth, [Text("OID "), Dotted(OidArcs(c)), Text("\n"), OidName(OidArcs(c))]);
      }
    case RelativeOidType =>
      AtLeastAt(depth, [Text("RELATIVEOID "), Dotted(Arcs(c)), Text("\n"), OidName(Arcs(c))]);
    case UniversalStringType =>
      if cs.utf32(c).Some? {
        AtLeastAt(depth, StringOut("UNIVERSALSTRING", cs.utf32(c).value));
      }
    case BmpStringType =>
      if cs.utf16(c).Some? {
        AtLeastAt(depth, StringOut("BMPSTRING", cs.utf16(c).value));
      }
  }

  lemma TextLeafDepth(cs: Charsets, t: byte, c: seq<byte>, depth: nat)
    requires KindOf(t).IntegerType? || KindOf(t).StringType?
    ensures AtLeast(LeafOut(cs, t, c, depth).out, depth)
  {
    match KindOf(t)
    case IntegerType(name) => AtLeastAt(depth, IntegerOut(name, c));
    case StringType(name) => AtLeastAt(depth, StringOut(name, c));
  }

  lemma DumpLeafDepth(cs: Charsets, t: byte, c: seq<byte>, depth: nat)
    requires KindOf(t).OpaqueType? || KindOf(t).UtcTimeType? || KindOf(t).UnhandledType?
    ensures AtLeast(LeafOut(cs, t, c, depth).out, depth)
  {
    match KindOf(t)
    case OpaqueType(name) => AtLeastAt(depth, DataOut(name, c));
    case UtcTimeType => AtLeastAt(depth, DataOut("UTCTIME", c) + UtcComment(c));
    case UnhandledType => AtLeastAt(depth, DataOut(UnhandledLabel(t), c));
  }

  /** Nothing a decode writes is shallower than the depth it starts at; the
      content of a SET or SEQUENCE is written strictly deeper than its label
      (the writer's next level). */
  lemma {:induction false} ParseDepth(cs: Charsets, data: seq<byte>, depth: nat)
    ensures AtLeast(ParseOut(cs, data, depth).out, depth)
    decreases |data|, 1
  {
    if data != [] {
      ElementDepth(cs, data, depth);
      var e := ElementOut(cs, data, depth);
      if e.outcome.Ok? {
        ParseDepth(cs, e.outcome.value, depth);
      }
    }
  }

  lemma {:induction false} ElementDepth(cs: Charsets, data: seq<byte>, depth: nat)
    ensures AtLeast(ElementOut(cs, data, depth).out, depth)
    decreases |data|, 0
  {
    if |data| >= 2 && TagOf(data[0]) != TypeIsLongFormTag {
      var header := At(depth, [Text(ClassLabel(data[0])), Text(FormLabel(data[0]))]);
      AtDepth(depth, [Text(ClassLabel(data[0])), Text(FormLabel(data[0]))]);
      var prefix := LengthOf(data[1..]);
      if prefix.Ok? {
        var p := prefix.value;
        if p.length <= |p.rest| {
          ContentDepth(cs, data[0], p.rest[..p.length], depth);
        }
      }
    }
  }

  lemma {:induction false} ContentDepth(cs: Charsets, t: byte, c: seq<byte>, depth: nat)
    ensures AtLeast(ContentOut(cs, t, c, depth).out, depth)
    decreases |c|, 3
  {
    match KindOf(t)
    case ConstructedType(name) =>
      ConstructedDepth(cs, name, c, depth);
    case _ =>
      LeafDepth(cs, t, c, depth);
  }

  /** SET and SEQUENCE write their label at their own depth and everything
      inside one level deeper. */
  lemma {:induction false} ConstructedDepth(cs: Charsets, name: string, c: seq<byte>, depth: nat)
    ensures var s := ConstructedOut(cs, name, c, depth);
            |s.out| >= 1 && s.out[0] == Record(depth, Text(name + "\n")) && AtLeast(s.out[1..], depth + 1)
    ensures AtLeast(ConstructedOut(cs, name, c, depth).out, depth)
    decreases |c|, 2
  {
    var s := ConstructedOut(cs, name, c, depth);
    ParseDepth(cs, c, depth + 1);
    assert s.out[1..] == ParseOut(cs, c, depth + 1).out;
  }

  /* ---------------- content interpreters ---------------- */

  /** The nested decode of a SET or SEQUENCE may fail without failing the
      enclosing element: only a panic inside reaches the caller. */
  lemma NestedErrorSwallowed(cs: Charsets, name: string, c: seq<byte>, depth: nat)
    ensures ConstructedOut(cs, name, c, depth).outcome.Ok? <==> !ParseOut(cs, c, depth + 1).outcome.Crash?
    ensures ConstructedOut(cs, name, c, depth).outcome.Ok? || ConstructedOut(cs, name, c, depth).outcome.Crash?
  {
  }

  /** A SEQUENCE, with its length in short or long form, writes its labels
      at its own depth and its content decoded one level deeper, and returns
      what follows it even when that content is not a valid element stream:
      only a panic inside makes it fail. */
  lemma SequenceElement(cs: Charsets, c: seq<byte>, rest: seq<byte>, depth: nat)
    requires MinimalOctets(|c|) <= 127 && !ParseOut(cs, c, depth + 1).outcome.Crash?
    ensures ElementOut(cs, [0x30] + EncodeLength(|c|) + c + rest, depth)
         == Step(At(depth, [Text("UNIVERSAL "), Text("COMPOSED "), Text("SEQUENCE\n")]) + ParseOut(cs, c, depth + 1).out,
                 Ok(rest))
  {
    var len := EncodeLength(|c|);
    LengthRoundTrip(|c|, c + rest);
    AppendAssoc(len, c, rest);
    SequenceWithLength(cs, len, c, rest, depth);
  }

  /** SequenceElement for any length octets that decode to the content's
      length. */
  lemma SequenceWithLength(cs: Charsets, len: seq<byte>, c: seq<byte>, rest: seq<byte>, depth: nat)
    requires |len| >= 1 && LengthOf(len + (c + rest)) == Ok(LengthPrefix(|c|, c + rest))
    requires !ParseOut(cs, c, depth + 1).outcome.Crash?
    ensures ElementOut(cs, [0x30] + len + c + rest, depth)
         == Step(At(depth, [Text("UNIVERSAL "), Text("COMPOSED "), Text("SEQUENCE\n")]) + ParseOut(cs, c, depth + 1).out,
                 Ok(rest))
  {
    assert [0x30] + len + c + rest == [0x30] + (len + (c + rest));
    ElementParts(cs, 0x30, len + (c + rest), |c|, c + rest, depth);
    SequenceBody(cs, c, rest, depth);
    SequenceLabels(depth, ParseOut(cs, c, depth + 1).out);
  }

  /** The labels of a SEQUENCE element, written as two writes, are the three
      pieces at its depth. */
  lemma SequenceLabels(depth: nat, nested: seq<Record>)
    ensures At(depth, [Text("UNIVERSAL "), Text("COMPOSED ")]) + (At(depth, [Text("SEQUENCE\n")]) + nested)
         == At(depth, [Text("UNIVERSAL "), Text("COMPOSED "), Text("SEQUENCE\n")]) + nested
  {
    var header := [Text("UNIVERSAL "), Text("COMPOSED ")];
    var title := [Text("SEQUENCE\n")];
    AtAppend(depth, header, title);
    assert header + title == [Text("UNIVERSAL "), Text("COMPOSED "), Text("SEQUENCE\n")];
    AppendAssoc(At(depth, header), At(depth, title), nested);
  }

  /** An element whose identifier and length octets are accepted writes its
      class and form labels, then what its content writes. */
  lemma ElementParts(cs: Charsets, t: byte, tail: seq<byte>, n: nat, r: seq<byte>, depth: nat)
    requires |tail| >= 1 && TagOf(t) != TypeIsLongFormTag && LengthOf(tail) == Ok(LengthPrefix(n, r))
    ensures ElementOut(cs, [t] + tail, depth)
         == Step(At(depth, [Text(ClassLabel(t)), Text(FormLabel(t))]) + BodyOut(cs, t, n, r, depth).out,
                 BodyOut(cs, t, n, r, depth).outcome)
  {
    assert ([t] + tail)[1..] == tail;
  }

  /** The content part of SequenceElement: the label, then the content one
      level deeper, and the octets after the content returned. */
  lemma SequenceBody(cs: Charsets, c: seq<byte>, rest: seq<byte>, depth: nat)
    requires !ParseOut(cs, c, depth + 1).outcome.Crash?
    ensures BodyOut(cs, 0x30, |c|, c + rest, depth)
         == Step(At(depth, [Text("SEQUENCE\n")]) + ParseOut(cs, c, depth + 1).out, Ok(rest))
  {
    assert (c + rest)[..|c|] == c;
    assert (c + rest)[|c|..] == rest;
    assert KindOf(0x30) == ConstructedType("SEQUENCE");
    assert "SEQUENCE" + "\n" == "SEQUENCE\n";
    assert ContentOut(cs, 0x30, c, depth) == Step(At(depth, [Text("SEQUENCE\n")]) + ParseOut(cs, c, depth + 1).out, Ok(()));
  }

  /** BOOLEAN accepts exactly one content octet; zero reads as FALSE and any
      other value as TRUE. */
  lemma BooleanBehaviour(c: seq<byte>, depth: nat)
    ensures BooleanOut(c, depth).outcome.Ok? <==> |c| == 1
    ensures |c| == 1 ==> BooleanOut(c, depth).out
                         == At(depth, [Text(if c[0] == 0 then "BOOLEAN FALSE\n" else "BOOLEAN TRUE\n")])
    ensures |c| != 1 ==> BooleanOut(c, depth) == Step([], Err(BooleanLength(|c|)))
  {
  }

  /** END-OF-CONTENT and NULL are accepted exactly when they have no
      content. */
  lemma EmptyContentTypes(c: seq<byte>, depth: nat)
    ensures EndOfContentOut(c, depth).outcome.Ok? <==> c == []
    ensures NullOut(c, depth).outcome.Ok? <==> c == []
  {
  }

  /** BIT STRING is accepted exactly when its first octet, the count of
      unused bits, is present and at most 7. */
  lemma BitStringBehaviour(c: seq<byte>, depth: nat)
    ensures BitStringOut(c, depth).outcome.Ok? <==> |c| >= 1 && c[0] <= 7
    ensures |c| == 0 ==> BitStringOut(c, depth).outcome == Err(BitStringNoPadding)
    ensures |c| >= 1 && c[0] > 7 ==> BitStringOut(c, depth).outcome == Err(BitStringPadding(c[0]))
  {
  }

  /** The hex dump has one piece per octet, in order. */
  lemma {:induction false} HexPiecesAt(c: seq<byte>, i: nat)
    requires i < |c|
    ensures HexPieces(c)[i] == Hex(c[i])
  {
    if i < |c| - 1 {
      HexPiecesAt(c[..|c| - 1], i);
    }
  }

  /** The hex dump is a single ':' followed by one two-digit piece per
      octet, in order, with nothing between them. */
  lemma HexDumpShape(c: seq<byte>)
    ensures |OctetsOut(c)| == |c| + 1 && OctetsOut(c)[0] == Text(":")
    ensures forall i :: 0 <= i < |c| ==> OctetsOut(c)[i + 1] == Hex(c[i])
  {
    forall i | 0 <= i < |c|
      ensures OctetsOut(c)[i + 1] == Hex(c[i])
    {
      HexPiecesAt(c, i);
    }
  }

  /** An accepted BIT STRING writes the padding count as a decimal, then the
      hex dump of the octets after it, all at the element's depth. */
  lemma BitStringDump(c: seq<byte>, depth: nat)
    requires |c| >= 1 && c[0] <= 7
    ensures var out := BitStringOut(c, depth).out;
            |out| == |c| + 4 && out[1] == Record(depth, Decimal(c[0])) && out[3] == Record(depth, Text(":"))
            && forall i :: 4 <= i < |c| + 3 ==> out[i] == Record(depth, Hex(c[i - 3]))
  {
    var ps := [Text("BITSTRING PAD="), Decimal(c[0]), Text(" ")] + OctetsOut(c[1..]) + [Text("\n")];
    AtDepth(depth, ps);
    HexDumpShape(c[1..]);
    assert forall i :: 4 <= i < |c| + 3 ==> ps[i] == OctetsOut(c[1..])[i - 3];
  }

  /** The escaped text has one piece per octet, in order. */
  lemma {:induction false} EscapedPiecesAt(c: seq<byte>, i: nat)
    requires i < |c|
    ensures EscapedPieces(c)[i] == Escaped(c[i])
  {
    if i < |c| - 1 {
      EscapedPiecesAt(c[..|c| - 1], i);
    }
  }

  /** Text is written with its line feeds and carriage returns escaped: no
      octet passed through unchanged is a line break, and every other octet
      is passed through unchanged. */
  lemma EscapedHasNoLineBreaks(c: seq<byte>, i: nat)
    requires i < |c|
    ensures EscapedPieces(c)[i].Raw? <==> c[i] != 10 && c[i] != 13
    ensures EscapedPieces(c)[i].Raw? ==> EscapedPieces(c)[i].bytes == [c[i]]
  {
    EscapedPiecesAt(c, i);
  }

  /** INTEGER and ENUMERATED write nothing at all exactly when the content
      is eight octets with the sign bit clear. */
  lemma {:induction false} EightOctetIntegerSilent(name: string, c: seq<byte>)
    ensures IntegerOut(name, c) == [] <==> |c| == 8 && c[0] < 128
  {
  }

  /** The decimal an INTEGER shows is the unsigned big-endian value of at
      most seven octets, so it stays below 2^56 and the source's 64-bit
      accumulator cannot overflow. */
  lemma IntegerFitsInt64(name: string, c: seq<byte>)
    requires 0 < |c| < 8 && c[0] < 128
    ensures IntegerOut(name, c) == [Text(name + " "), Decimal(BigEndian(c)), Text("\n")]
    ensures BigEndian(c) < 0x100_0000_0000_0000
  {
    BigEndianBound(c);
    Pow256Monotone(|c|, 7);
  }

  lemma {:induction false} Pow256Monotone(j: nat, k: nat)
    requires j <= k
    ensures Pow256(j) <= Pow256(k)
    decreases k
  {
    if j < k {
      Pow256Monotone(j, k - 1);
    }
  }

  /** INTEGER 00 FF is shown as 255. */
  lemma IntegerExample()
    ensures IntegerOut("INTEGER", [0x00, 0xFF]) == [Text("INTEGER "), Decimal(255), Text("\n")]
  {
    var c: seq<byte> := [0x00, 0xFF];
    assert c[..1] == [0x00];
    assert [0x00][..0] == [];
    assert BigEndian([0x00]) == 0;
    assert "INTEGER" + " " == "INTEGER ";
  }

  /** The first octet of an OBJECT IDENTIFIER carries the first two arcs as
      40 * first + second; the remaining arcs decode as they were encoded. */
  lemma OidRoundTrip(first: nat, second: nat, later: seq<nat>)
    requires second < 40 && 40 * first + second < 256
    ensures OidArcs([40 * first + second] + EncodeArcs(later)) == [first, second] + later
  {
    var b: byte := 40 * first + second;
    assert b / 40 == first && b % 40 == second;
    var c := [b] + EncodeArcs(later);
    assert c[1..] == EncodeArcs(later);
    ArcsRoundTrip(later);
    assert OidArcs(c) == [first, second] + Arcs(EncodeArcs(later));
  }

  /** A RELATIVE-OID with content panics exactly when no octet ends an arc,
      that is when every octet has its top bit set. */
  lemma RelativeOidCrashIff(c: seq<byte>, depth: nat)
    requires |c| >= 1
    ensures RelativeOidOut(c, depth).outcome.Crash? <==> forall i :: 0 <= i < |c| ==> c[i] >= 128
  {
    ArcsEmptyIff(c);
  }

  /** Octets after the last arc-ending octet of an OBJECT IDENTIFIER are
      dropped without an error. */
  lemma OidTrailingOctetsDropped(c: seq<byte>, t: seq<byte>)
    requires |c| >= 1 && forall i :: 0 <= i < |t| ==> t[i] >= 128
    ensures OidArcs(c + t) == OidArcs(c)
  {
    assert (c + t)[1..] == c[1..] + t;
    UnterminatedTailIgnored(c[1..], t);
  }

  /** 06 06 2A 86 48 86 F7 0D is written as OID 1.2.840.113549. */
  lemma OidExample(depth: nat)
    ensures ObjectIdentifierOut([0x2A, 0x86, 0x48, 0x86, 0xF7, 0x0D], depth).out
         == At(depth, [Text("OID "), Dotted([1, 2, 840, 113549]), Text("\n"), OidName([1, 2, 840, 113549])])
  {
    var c: seq<byte> := [0x2A, 0x86, 0x48, 0x86, 0xF7, 0x0D];
    assert c[1..] == [0x86, 0x48, 0x86, 0xF7, 0x0D];
    RsaArcsExample();
    assert OidArcs(c) == [1, 2] + [840, 113549];
    assert [1, 2] + [840, 113549] == [1, 2, 840, 113549];
  }

  /** The first two arcs are split from the first octet alone, not from the
      first base-128 subidentifier as section 8.19.4 of ITU-T X.690 has it: a
      first octet with its top bit set, which X.690 uses for a first
      subidentifier of 128 or more (first arc 2, second arc 48 or more),
      gives a first arc of 3 or more, which X.690 never produces. */
  lemma OidFirstSubidentifierSplit(c: seq<byte>)
    requires |c| >= 1 && c[0] >= 128
    ensures OidArcs(c)[0] >= 3
  {
    assert c[0] / 40 >= 128 / 40;
  }

  /** 2.100.3, whose X.690 subidentifiers 180 and 3 encode as 81 34 03
      (Base128.EncodeArcsExample), is written as OID 3.9.52.3. */
  lemma OidX690Example(depth: nat)
    ensures ObjectIdentifierOut([0x81, 0x34, 0x03], depth).out
         == At(depth, [Text("OID "), Dotted([3, 9, 52, 3]), Text("\n"), OidName([3, 9, 52, 3])])
  {
    ShortArcsExample();
    var c: seq<byte> := [0x81, 0x34, 0x03];
    assert c[1..] == [0x34, 0x03];
    assert OidArcs(c) == [3, 9] + [52, 3];
    assert [3, 9] + [52, 3] == [3, 9, 52, 3];
  }

  /** The UTCTime comment is written exactly for the two Z-terminated
      shapes of 13 and 11 octets. */
  lemma UtcCommentShapes(c: seq<byte>)
    ensures UtcComment(c) != [] <==> (|c| == 13 && c[12] == 'Z' as byte) || (|c| == 11 && c[10] == 'Z' as byte)
  {
  }

  /** An INTEGER element with one content octet below 128: two labels, then
      the decimal value, at the element's depth. */
  lemma SmallIntegerElement(cs: Charsets, b: byte, rest: seq<byte>, depth: nat)
    requires b < 128
    ensures ElementOut(cs, [0x02, 0x01, b] + rest, depth)
         == Step(At(depth, [Text("UNIVERSAL "), Text("PRIMITIVE "), Text("INTEGER "), Decimal(b), Text("\n")]), Ok(rest))
  {
    var data := [0x02, 0x01, b] + rest;
    assert data[1..] == [1 as byte] + ([b] + rest);
    LengthShortForm(1, [b] + rest);
    assert ([b] + rest)[..1] == [b] && ([b] + rest)[1..] == rest;
    assert [b][..0] == [];
    assert BigEndian([b]) == b;
    assert "INTEGER" + " " == "INTEGER ";
    var ps := [Text("UNIVERSAL "), Text("PRIMITIVE ")];
    var qs := [Text("INTEGER "), Decimal(b), Text("\n")];
    assert ContentOut(cs, 0x02, [b], depth) == Step(At(depth, qs), Ok(()));
    AtAppend(depth, ps, qs);
    assert ps + qs == [Text("UNIVERSAL "), Text("PRIMITIVE "), Text("INTEGER "), Decimal(b), Text("\n")];
  }

  /** 02 01 05 02 01 07 decoded one level deep: two INTEGER elements, in
      order. */
  lemma TwoIntegersExample(cs: Charsets)
    ensures ParseOut(cs, [0x02, 0x01, 0x05, 0x02, 0x01, 0x07], 1)
         == Step(At(1, [Text("UNIVERSAL "), Text("PRIMITIVE "), Text("INTEGER "), Decimal(5), Text("\n")])
                 + At(1, [Text("UNIVERSAL "), Text("PRIMITIVE "), Text("INTEGER "), Decimal(7), Text("\n")]),
                 Ok(()))
  {
    var second: seq<byte> := [0x02, 0x01, 0x07];
    SmallIntegerElement(cs, 5, second, 1);
    SmallIntegerElement(cs, 7, [], 1);
    assert second + [] == second;
    assert [0x02, 0x01, 0x05] + second == [0x02, 0x01, 0x05, 0x02, 0x01, 0x07];
    ParseOutStep(cs, second, 1);
    ParseOutStep(cs, [0x02, 0x01, 0x05] + second, 1);
  }
}
