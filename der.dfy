/** The DER tag-length-value decoder of der/der.go: it walks a byte buffer
    element by element, writes a label for each element's class and form,
    decodes the length prefix (X.690 section 8.1.3), slices out the content
    and renders it according to the identifier octet, recursing into SET and
    SEQUENCE content one level deeper.

    Each imperative method is proved against a function of its inputs:
    `DecodeLength` against `LengthOf`, `AccumulateArcs` against
    `Base128.Arcs`, the printing methods against the pieces they write, and
    `Parse`, `ParseElement` and `HandleContent` against `ParseOut`,
    `ElementOut` and `ContentOut`. The properties the decoder promises are
    stated about those functions here and in module DerProperties. */
module Der {
  import opened Octets
  import opened Base128
  import opened Output

  // Class bits (the top two bits of the identifier octet).
  const ClassUniversal: byte := 0x00
  const ClassApplication: byte := 0x40
  const ClassContextSpecific: byte := 0x80
  const ClassPrivate: byte := 0xC0

  // Form bit (bit 5 of the identifier octet).
  const Composed: byte := 0x20
  const Primitive: byte := 0x00

  // Universal tag numbers (the low five bits of the identifier octet).
  const TypeEndOfContent: byte := 0x00
  const TypeBoolean: byte := 0x01
  const TypeInteger: byte := 0x02
  const TypeBitString: byte := 0x03
  const TypeOctetString: byte := 0x04
  const TypeNull: byte := 0x05
  const TypeObjectIdentifier: byte := 0x06
  const TypeObjectDescription: byte := 0x07
  const TypeExternal: byte := 0x08
  const TypeReal: byte := 0x09
  const TypeEnumerated: byte := 0x0A
  const TypeEmbeddedPDV: byte := 0x0B
  const TypeUtf8String: byte := 0x0C
  const TypeRelativeOID: byte := 0x0D
  const TypeSequence: byte := 0x10
  const TypeSet: byte := 0x11
  const TypeNumericString: byte := 0x12
  const TypePrintableString: byte := 0x13
  const TypeT61String: byte := 0x14
  const TypeVideotexString: byte := 0x15
  const TypeIA5String: byte := 0x16
  const TypeUTCTime: byte := 0x17
  const TypeGeneralizedTime: byte := 0x18
  const TypeGraphicString: byte := 0x19
  const TypeVisibleString: byte := 0x1A
  const TypeGeneralString: byte := 0x1B
  const TypeUniversalString: byte := 0x1C
  const TypeCharacterString: byte := 0x1D
  const TypeBMPString: byte := 0x1E
  const TypeIsLongFormTag: byte := 0x1F

  /** The errors the decoder returns, one per message in the source. */
  datatype Error =
    | ShortRead(have: nat)                  // fewer than two octets for identifier and length
    | LongFormTag                           // tag field 0x1F: multi-octet tags are not supported
    | LengthUnsatisfiable(count: nat)       // long-form length names more octets than remain
    | ShortContent(need: nat, have: nat)    // declared length exceeds the octets that remain
    | EndOfContentLength(length: nat)       // END-OF-CONTENT with content
    | BooleanLength(length: nat)            // BOOLEAN whose content is not exactly one octet
    | BitStringNoPadding                    // BIT STRING without its padding-count octet
    | BitStringPadding(padding: nat)        // BIT STRING padding count above 7
    | NullContent                           // NULL with content
    | OidEmpty                              // OBJECT IDENTIFIER without content
    | RelativeOidEmpty                      // RELATIVE-OID without content
    | Charset                               // UTF-16 or UTF-32 conversion refused the content

  /** How a decoding step ends: with a value, with a returned error, or with
      a runtime panic (`Crash`), which no caller recovers from. */
  datatype Outcome<T> = Ok(value: T) | Err(error: Error) | Crash

  /** A failed outcome carried over to another value type. */
  function Propagate<T, U>(o: Outcome<T>): (r: Outcome<U>)
    requires !o.Ok?
    ensures r.Err? == o.Err? && (r.Err? ==> r.error == o.error)
  {
    if o.Err? then Err(o.error) else Crash
  }

  /** What a step writes to the sink, and how it ends. */
  datatype Step<T> = Step(out: seq<Record>, outcome: Outcome<T>)

  datatype Option<T> = None | Some(value: T)

  /** The two character-set converters the decoder calls (UTF-32 and UTF-16,
      big-endian, to UTF-8). They come from a library outside this model and
      are parameters: None stands for a conversion error. */
  datatype Charsets = Charsets(
    utf32: seq<byte> -> Option<seq<byte>>,
    utf16: seq<byte> -> Option<seq<byte>>)

  /* ---------------- identifier octet ---------------- */

  /** The tag number field (`typeByte & 0x1F`). */
  function TagOf(t: byte): (tag: byte)
    ensures tag < 32
  {
    t % 32
  }

  /** The form bit (`typeByte & 0x20`): Composed or Primitive. */
  function FormOf(t: byte): (form: byte)
    ensures form == Composed || form == Primitive
  {
    (t / 32) % 2 * 32
  }

  /** The class bits (`typeByte & 0xC0`). */
  function ClassOf(t: byte): (cls: byte)
    ensures cls in {ClassUniversal, ClassApplication, ClassContextSpecific, ClassPrivate}
  {
    t / 64 * 64
  }

  /** The label written for the class bits. */
  function ClassLabel(t: byte): string
  {
    var cls := ClassOf(t);
    if cls == ClassUniversal then "UNIVERSAL "
    else if cls == ClassApplication then "APPLICATION "
    else if cls == ClassContextSpecific then "CONTEXT-SPECIFIC "
    else "PRIVATE "
  }

  /** The label written for the form bit. */
  function FormLabel(t: byte): string
  {
    if FormOf(t) == Primitive then "PRIMITIVE " else "COMPOSED "
  }

  /* ---------------- length octets ---------------- */

  /** A decoded length and the octets after the length octets. */
  datatype LengthPrefix = LengthPrefix(length: nat, rest: seq<byte>)

  /** The length octets at the start of data: short form when the top bit of
      the first octet is clear, otherwise the first octet's low seven bits
      count the big-endian length octets that follow. */
  function LengthOf(data: seq<byte>): (r: Outcome<LengthPrefix>)
    requires |data| >= 1
    ensures !r.Crash?
    ensures r.Ok? ==> |r.value.rest| < |data| && r.value.rest == data[|data| - |r.value.rest|..]
  {
    if data[0] >= 128 then
      var count := data[0] - 128;
      if |data| - 1 < count then Err(LengthUnsatisfiable(count))
      else Ok(LengthPrefix(BigEndian(data[1..1 + count]), data[1 + count..]))
    else
      Ok(LengthPrefix(data[0], data[1..]))
  }

  /** The DER length octets for n: short form below 128, otherwise the
      long form with the fewest octets. */
  function EncodeLength(n: nat): (s: seq<byte>)
    requires MinimalOctets(n) <= 127
    ensures |s| >= 1
  {
    if n < 128 then [n] else [128 + MinimalOctets(n)] + BigEndianBytes(n, MinimalOctets(n))
  }

  /** Decodes the length octets at the start of data. The caller always
      passes at least one octet. */
  method DecodeLength(data: seq<byte>) returns (r: Outcome<LengthPrefix>)
    requires |data| >= 1
    ensures r == LengthOf(data)
  {
    var firstByte := data[0];
    if firstByte >= 128 {
      var numToRead := firstByte - 128;
      if |data| - 1 < numToRead {
        return Err(LengthUnsatisfiable(numToRead));
      }
      var length: nat := 0;
      var i := 0;
      while i < numToRead
        invariant 0 <= i <= numToRead
        invariant length == BigEndian(data[1..1 + i])
      {
        assert data[1..1 + (i + 1)][..i] == data[1..1 + i];
        length := length * 256 + data[1 + i];
        i := i + 1;
      }
      return Ok(LengthPrefix(length, data[1 + numToRead..]));
    } else {
      return Ok(LengthPrefix(firstByte, data[1..]));
    }
  }

  /* ---------------- what each content interpreter writes ---------------- */

  /** One `%02X` piece per octet, in order. */
  function HexPieces(c: seq<byte>): (ps: seq<Piece>)
    ensures |ps| == |c|
  {
    if c == [] then [] else HexPieces(c[..|c| - 1]) + [Hex(c[|c| - 1])]
  }

  /** What the hex dump writes: one ':' and then the octets. */
  function OctetsOut(c: seq<byte>): seq<Piece>
  {
    [Text(":")] + HexPieces(c)
  }

  /** What an opaque value writes: its name, the hex dump, a line end, and
      whatever the hint renderer adds. */
  function DataOut(name: string, c: seq<byte>): seq<Piece>
  {
    [Text(name + " ")] + OctetsOut(c) + [Text("\n"), Hint(c)]
  }

  /** One octet of text: line feed and carriage return are written as the
      two-character escapes, every other octet as it is. */
  function Escaped(v: byte): Piece
  {
    if v == 10 then Text("\\n") else if v == 13 then Text("\\r") else Raw([v])
  }

  function EscapedPieces(c: seq<byte>): (ps: seq<Piece>)
    ensures |ps| == |c|
  {
    if c == [] then [] else EscapedPieces(c[..|c| - 1]) + [Escaped(c[|c| - 1])]
  }

  /** What a text value writes: its name, the escaped text, a line end. */
  function StringOut(name: string, c: seq<byte>): seq<Piece>
  {
    [Text(name + " ")] + EscapedPieces(c) + [Text("\n")]
  }

  /** What INTEGER and ENUMERATED write: the decimal value for one to seven
      octets with the sign bit clear, a hex dump for no octets, more than
      eight octets or the sign bit set, and nothing at all for exactly eight
      octets with the sign bit clear. */
  function IntegerOut(name: string, c: seq<byte>): seq<Piece>
  {
    if 0 < |c| < 8 && c[0] < 128 then [Text(name + " "), Decimal(BigEndian(c)), Text("\n")]
    else if |c| > 8 || |c| == 0 || c[0] >= 128 then DataOut(name, c)
    else []
  }

  /** The comment after a UTCTime hex dump: `YYMMDDHHMMSSZ` and `YYMMDDHHMMZ`
      read as a date in the 2000s; any other content gets no comment. */
  function UtcComment(c: seq<byte>): seq<Piece>
  {
    if |c| == 13 && c[12] == 'Z' as byte then
      [Text("# 20"), Raw(c[0..2]), Text("-"), Raw(c[2..4]), Text("-"), Raw(c[4..6]),
       Text(" "), Raw(c[6..8]), Text(":"), Raw(c[8..10]), Text(":"), Raw(c[10..12]), Text(" GMT\n")]
    else if |c| == 11 && c[10] == 'Z' as byte then
      [Text("# 20"), Raw(c[0..2]), Text("-"), Raw(c[2..4]), Text("-"), Raw(c[4..6]),
       Text(" "), Raw(c[6..8]), Text(":"), Raw(c[8..10]), Text(":00 GMT\n")]
    else []
  }

  /** The arcs of an OBJECT IDENTIFIER with non-empty content: two from the
      first octet, then the base-128 arcs of the remaining octets. */
  function OidArcs(c: seq<byte>): seq<nat>
    requires |c| >= 1
  {
    [c[0] / 40, c[0] % 40] + Arcs(c[1..])
  }

  /** Two lower-case hex digits (`%02x`). */
  function LowerHex(b: byte): string
  {
    var digits := "0123456789abcdef";
    [digits[b / 16], digits[b % 16]]
  }

  /** The name of an identifier octet no case of the dispatch names. */
  function UnhandledLabel(t: byte): string
  {
    "UNHANDLED-TAG=" + LowerHex(TagOf(t))
  }

  function Emitted(depth: nat, ps: seq<Piece>): Step<()>
  {
    Step(At(depth, ps), Ok(()))
  }

  function Failed(e: Error): Step<()>
  {
    Step([], Err(e))
  }

  /* ---------------- the decoder, as functions ---------------- */

  /** The handler the dispatch picks for an identifier octet; the opaque,
      text and integer handlers carry the label they write. */
  datatype Kind =
    | EndOfContentType
    | BooleanType
    | IntegerType(name: string)
    | BitStringType
    | OpaqueType(name: string)
    | NullType
    | ObjectIdentifierType
    | RelativeOidType
    | StringType(name: string)
    | ConstructedType(name: string)
    | UtcTimeType
    | UniversalStringType
    | BmpStringType
    | UnhandledType

  /** The dispatch on the whole identifier octet, class bits included: only
      universal-class octets with the listed form are recognised. */
  function KindOf(t: byte): Kind
  {
    if t == TypeEndOfContent + Primitive then EndOfContentType
    else if t == TypeBoolean + Primitive then BooleanType
    else if t == TypeInteger + Primitive then IntegerType("INTEGER")
    else if t == TypeBitString + Primitive then BitStringType
    else if t == TypeOctetString + Primitive then OpaqueType("OCTETSTRING")
    else if t == TypeNull + Primitive then NullType
    else if t == TypeObjectIdentifier + Primitive then ObjectIdentifierType
    else if t == TypeObjectDescription + Primitive then OpaqueType("OBJECTDESCRIPTION")
    else if t == TypeExternal + Composed then OpaqueType("EXTERNAL")
    else if t == TypeReal + Primitive then OpaqueType("REAL")
    else if t == TypeEnumerated + Primitive then IntegerType("ENUMERATED")
    else if t == TypeEmbeddedPDV + Composed then OpaqueType("EMBEDDED-PDV")
    else if t == TypeUtf8String + Primitive then StringType("UTF8STRING")
    else if t == TypeRelativeOID + Primitive then RelativeOidType
    else if t == TypeNumericString + Primitive then StringType("NUMERICSTRING")
    else if t == TypePrintableString + Primitive then StringType("PRINTABLESTRING")
    else if t == TypeSet + Composed then ConstructedType("SET")
    else if t == TypeSequence + Composed then ConstructedType("SEQUENCE")
    else if t == TypeT61String + Primitive then OpaqueType("T61STRING")
    else if t == TypeVideotexString + Primitive then OpaqueType("VIDEOTEXSTRING")
    else if t == TypeIA5String + Primitive then StringType("IA5STRING")
    else if t == TypeUTCTime + Primitive then UtcTimeType
    else if t == TypeGeneralizedTime + Primitive then StringType("GENERALIZEDTIME")
    else if t == TypeGraphicString + Primitive then OpaqueType("GRAPHICSTRING")
    else if t == TypeVisibleString + Primitive then StringType("VISIBLESTRING")
    else if t == TypeGeneralString + Primitive then OpaqueType("GENERALSTRING")
    else if t == TypeUniversalString + Primitive then UniversalStringType
    else if t == TypeCharacterString + Primitive then OpaqueType("CHARACTERSTRING")
    else if t == TypeBMPString + Primitive then BmpStringType
    else UnhandledType
  }

  /** END-OF-CONTENT: no content allowed. */
  function EndOfContentOut(c: seq<byte>, depth: nat): Step<()>
  {
    if |c| != 0 then Failed(EndOfContentLength(|c|)) else Emitted(depth, [Text("END-OF-CONTENT\n")])
  }

  /** BOOLEAN: exactly one octet; zero is FALSE, anything else TRUE. */
  function BooleanOut(c: seq<byte>, depth: nat): Step<()>
  {
    if |c| != 1 then Failed(BooleanLength(|c|))
    else if c[0] == 0 then Emitted(depth, [Text("BOOLEAN FALSE\n")])
    else Emitted(depth, [Text("BOOLEAN TRUE\n")])
  }

  /** BIT STRING: a padding count from 0 to 7, then the octets in hex. */
  function BitStringOut(c: seq<byte>, depth: nat): Step<()>
  {
    if |c| < 1 then Failed(BitStringNoPadding)
    else if c[0] > 7 then Failed(BitStringPadding(c[0]))
    else Emitted(depth, [Text("BITSTRING PAD="), Decimal(c[0]), Text(" ")] + OctetsOut(c[1..]) + [Text("\n")])
  }

  /** NULL: no content allowed. */
  function NullOut(c: seq<byte>, depth: nat): Step<()>
  {
    if |c| != 0 then Failed(NullContent) else Emitted(depth, [Text("NULL\n")])
  }

  /** OBJECT IDENTIFIER: the dotted arcs and the name lookup. */
  function ObjectIdentifierOut(c: seq<byte>, depth: nat): Step<()>
  {
    if |c| < 1 then Failed(OidEmpty)
    else Emitted(depth, [Text("OID "), Dotted(OidArcs(c)), Text("\n"), OidName(OidArcs(c))])
  }

  /** RELATIVE-OID: the dotted arcs without the first-octet split; when no
      arc is completed the source panics. */
  function RelativeOidOut(c: seq<byte>, depth: nat): Step<()>
  {
    if |c| < 1 then Failed(RelativeOidEmpty)
    else if Arcs(c) == [] then Step([], Crash)
    else Emitted(depth, [Text("RELATIVEOID "), Dotted(Arcs(c)), Text("\n"), OidName(Arcs(c))])
  }

  /** UNIVERSALSTRING and BMPSTRING: the converted text, or the converter's
      error. */
  function ConvertedOut(name: string, converted: Option<seq<byte>>, depth: nat): Step<()>
  {
    match converted
    case None => Failed(Charset)
    case Some(b) => Emitted(depth, StringOut(name, b))
  }

  /** UTCTime: the hex dump, then the date comment when the content has
      one of the two recognised shapes. */
  function UtcTimeOut(c: seq<byte>, depth: nat): Step<()>
  {
    Emitted(depth, DataOut("UTCTIME", c) + UtcComment(c))
  }

  /** SET and SEQUENCE: the label, then the content decoded as a stream of
      elements one level deeper. An error there is dropped; a panic is not. */
  function ConstructedOut(cs: Charsets, name: string, c: seq<byte>, depth: nat): Step<()>
    decreases |c|, 2
  {
    var inner := ParseOut(cs, c, depth + 1);
    Step(At(depth, [Text(name + "\n")]) + inner.out, if inner.outcome.Crash? then Crash else Ok(()))
  }

  /** What the content of an element with identifier octet t writes at the
      given depth, and whether it is accepted. */
  function ContentOut(cs: Charsets, t: byte, c: seq<byte>, depth: nat): Step<()>
    decreases |c|, 3
  {
    match KindOf(t)
    case ConstructedType(name) => ConstructedOut(cs, name, c, depth)
    case _ => LeafOut(cs, t, c, depth)
  }

  /** The same for every identifier octet that is not SET or SEQUENCE: these
      interpreters write at the element's own depth and do not recurse. */
  function LeafOut(cs: Charsets, t: byte, c: seq<byte>, depth: nat): Step<()>
    requires !KindOf(t).ConstructedType?
  {
    match KindOf(t)
    case EndOfContentType => EndOfContentOut(c, depth)
    case BooleanType => BooleanOut(c, depth)
    case IntegerType(name) => Emitted(depth, IntegerOut(name, c))
    case BitStringType => BitStringOut(c, depth)
    case OpaqueType(name) => Emitted(depth, DataOut(name, c))
    case NullType => NullOut(c, depth)
    case ObjectIdentifierType => ObjectIdentifierOut(c, depth)
    case RelativeOidType => RelativeOidOut(c, depth)
    case StringType(name) => Emitted(depth, StringOut(name, c))
    case UtcTimeType => UtcTimeOut(c, depth)
    case UniversalStringType => ConvertedOut("UNIVERSALSTRING", cs.utf32(c), depth)
    case BmpStringType => ConvertedOut("BMPSTRING", cs.utf16(c), depth)
    case UnhandledType => Emitted(depth, DataOut(UnhandledLabel(t), c))
  }

  /** What decoding the element at the start of data writes, and the octets
      after it. On success the rest is a proper suffix of data. */
  function ElementOut(cs: Charsets, data: seq<byte>, depth: nat): (s: Step<seq<byte>>)
    decreases |data|, 0
    ensures s.outcome.Ok? ==> |s.outcome.value| < |data|
  {
    if |data| < 2 then Step([], Err(ShortRead(|data|)))
    else if TagOf(data[0]) == TypeIsLongFormTag then Step([], Err(LongFormTag))
    else
      var header := At(depth, [Text(ClassLabel(data[0])), Text(FormLabel(data[0]))]);
      var prefix := LengthOf(data[1..]);
      if !prefix.Ok? then Step(header, Propagate(prefix))
      else
        var body := BodyOut(cs, data[0], prefix.value.length, prefix.value.rest, depth);
        Step(header + body.out, body.outcome)
  }

  /** What the content of an element writes once its length is known: the
      first contentLen octets of rest are the content, the octets after them
      are returned. */
  function BodyOut(cs: Charsets, t: byte, contentLen: nat, rest: seq<byte>, depth: nat): (s: Step<seq<byte>>)
    decreases |rest|, 4
    ensures s.outcome.Ok? ==> |s.outcome.value| <= |rest|
  {
    if |rest| < contentLen then Step([], Err(ShortContent(contentLen, |rest|)))
    else
      var body := ContentOut(cs, t, rest[..contentLen], depth);
      Step(body.out, if body.outcome.Ok? then Ok(rest[contentLen..]) else Propagate(body.outcome))
  }

  /** What decoding every element of data, in order, writes; the first
      failure ends the decode. */
  function ParseOut(cs: Charsets, data: seq<byte>, depth: nat): Step<()>
    decreases |data|, 1
  {
    if data == [] then Step([], Ok(()))
    else
      var e := ElementOut(cs, data, depth);
      if !e.outcome.Ok? then Step(e.out, Propagate(e.outcome))
      else
        var r := ParseOut(cs, e.outcome.value, depth);
        Step(e.out + r.out, r.outcome)
  }

  /** One turn of the decoding loop: a decoded element followed by the
      decode of what comes after it. */
  lemma ParseOutStep(cs: Charsets, data: seq<byte>, depth: nat)
    requires data != [] && ElementOut(cs, data, depth).outcome.Ok?
    ensures ParseOut(cs, data, depth)
         == Step(ElementOut(cs, data, depth).out + ParseOut(cs, ElementOut(cs, data, depth).outcome.value, depth).out,
                 ParseOut(cs, ElementOut(cs, data, depth).outcome.value, depth).outcome)
  {
  }

  /* ---------------- the decoder, as the source runs it ---------------- */

  /** Decodes every element of data, writing at the given depth. */
  method Parse(out: Sink, depth: nat, cs: Charsets, data: seq<byte>) returns (status: Outcome<()>)
    modifies out
    decreases |data|, 1
    ensures out.records == old(out.records) + ParseOut(cs, data, depth).out
    ensures status == ParseOut(cs, data, depth).outcome
  {
    ghost var total := ParseOut(cs, data, depth);
    var rest := data;
    while |rest| > 0
      invariant |rest| <= |data|
      invariant old(out.records) + total.out == out.records + ParseOut(cs, rest, depth).out
      invariant total.outcome == ParseOut(cs, rest, depth).outcome
      decreases |rest|
    {
      ghost var before := out.records;
      var r := ParseElement(out, depth, cs, rest);
      if !r.Ok? {
        return Propagate(r);
      }
      ParseOutStep(cs, rest, depth);
      AppendAssoc(before, ElementOut(cs, rest, depth).out, ParseOut(cs, r.value, depth).out);
      rest := r.value;
    }
    return Ok(());
  }

  /** Decodes the element at the start of data and returns the octets after
      it. */
  method ParseElement(out: Sink, depth: nat, cs: Charsets, data: seq<byte>) returns (r: Outcome<seq<byte>>)
    modifies out
    decreases |data|, 0
    ensures out.records == old(out.records) + ElementOut(cs, data, depth).out
    ensures r == ElementOut(cs, data, depth).outcome
  {
    if |data| < 2 {
      return Err(ShortRead(|data|));
    }
    var typeByte := data[0];
    var typeTag := TagOf(typeByte);
    if typeTag == TypeIsLongFormTag {
      return Err(LongFormTag);
    }
    out.Write(depth, [Text(ClassLabel(typeByte))]);
    out.Write(depth, [Text(FormLabel(typeByte))]);
    ghost var header := At(depth, [Text(ClassLabel(typeByte)), Text(FormLabel(typeByte))]);
    AtAppend(depth, [Text(ClassLabel(typeByte))], [Text(FormLabel(typeByte))]);
    assert [Text(ClassLabel(typeByte))] + [Text(FormLabel(typeByte))] == [Text(ClassLabel(typeByte)), Text(FormLabel(typeByte))];
    assert out.records == old(out.records) + header;
    var prefix := DecodeLength(data[1..]);
    if !prefix.Ok? {
      return Propagate(prefix);
    }
    r := HandleBody(out, depth, cs, typeByte, prefix.value.length, prefix.value.rest);
    AppendAssoc(old(out.records), header, BodyOut(cs, typeByte, prefix.value.length, prefix.value.rest, depth).out);
  }

  /** The part of parseElement after the length octets: checks that the
      content is all there, slices it off and renders it. */
  method HandleBody(out: Sink, depth: nat, cs: Charsets, typeByte: byte, contentLen: nat, rest: seq<byte>)
    returns (r: Outcome<seq<byte>>)
    modifies out
    decreases |rest|, 4
    ensures out.records == old(out.records) + BodyOut(cs, typeByte, contentLen, rest, depth).out
    ensures r == BodyOut(cs, typeByte, contentLen, rest, depth).outcome
  {
    if |rest| < contentLen {
      return Err(ShortContent(contentLen, |rest|));
    }
    var content := rest[..contentLen];
    var after := rest[contentLen..];
    var status := HandleContent(out, depth, cs, typeByte, content);
    if !status.Ok? {
      return Propagate(status);
    }
    return Ok(after);
  }

  /** Renders the content of an element with identifier octet typeByte. */
  method HandleContent(out: Sink, depth: nat, cs: Charsets, typeByte: byte, content: seq<byte>)
    returns (status: Outcome<()>)
    modifies out
    decreases |content|, 3
    ensures out.records == old(out.records) + ContentOut(cs, typeByte, content, depth).out
    ensures status == ContentOut(cs, typeByte, content, depth).outcome
  {
    match KindOf(typeByte) {
      case ConstructedType(name) =>
        status := HandleConstructed(out, depth, cs, name, content);
      case _ =>
        status := HandleLeaf(out, depth, cs, typeByte, content);
    }
  }

  /** The cases of the dispatch other than SET and SEQUENCE. */
  method HandleLeaf(out: Sink, depth: nat, cs: Charsets, typeByte: byte, content: seq<byte>)
    returns (status: Outcome<()>)
    requires !KindOf(typeByte).ConstructedType?
    modifies out
    ensures out.records == old(out.records) + LeafOut(cs, typeByte, content, depth).out
    ensures status == LeafOut(cs, typeByte, content, depth).outcome
  {
    status := Ok(());
    match KindOf(typeByte) {
      case EndOfContentType =>
        status := HandleEndOfContent(out, depth, content);
      case BooleanType =>
        status := HandleBoolean(out, depth, content);
      case IntegerType(name) =>
        HandleInteger(out, depth, name, content);
      case BitStringType =>
        status := HandleBitString(out, depth, content);
      case OpaqueType(name) =>
        HandleData(out, depth, name, content);
      case NullType =>
        status := HandleNull(out, depth, content);
      case ObjectIdentifierType =>
        status := HandleObjectIdentifier(out, depth, content);
      case RelativeOidType =>
        status := HandleRelativeOid(out, depth, content);
      case StringType(name) =>
        HandleString(out, depth, name, content);
      case UtcTimeType =>
        HandleUtcTime(out, depth, content);
      case UniversalStringType =>
        status := HandleConverted(out, depth, "UNIVERSALSTRING", cs.utf32(content));
      case BmpStringType =>
        status := HandleConverted(out, depth, "BMPSTRING", cs.utf16(content));
      case UnhandledType =>
        HandleData(out, depth, UnhandledLabel(typeByte), content);
    }
  }

  method HandleConstructed(out: Sink, depth: nat, cs: Charsets, name: string, content: seq<byte>)
    returns (status: Outcome<()>)
    modifies out
    decreases |content|, 2
    ensures out.records == old(out.records) + ConstructedOut(cs, name, content, depth).out
    ensures status == ConstructedOut(cs, name, content, depth).outcome
  {
    out.Write(depth, [Text(name + "\n")]);
    // the nested decoder's error is dropped; only a panic escapes
    var nested := Parse(out, depth + 1, cs, content);
    if nested.Crash? {
      return Crash;
    }
    return Ok(());
  }

  method HandleUtcTime(out: Sink, depth: nat, content: seq<byte>)
    modifies out
    ensures out.records == old(out.records) + UtcTimeOut(content, depth).out
  {
    HandleData(out, depth, "UTCTIME", content);
    out.Write(depth, UtcComment(content));
    AtAppend(depth, DataOut("UTCTIME", content), UtcComment(content));
  }

  method HandleEndOfContent(out: Sink, depth: nat, content: seq<byte>) returns (status: Outcome<()>)
    modifies out
    ensures out.records == old(out.records) + EndOfContentOut(content, depth).out
    ensures status == EndOfContentOut(content, depth).outcome
  {
    if |content| != 0 {
      return Err(EndOfContentLength(|content|));
    }
    out.Write(depth, [Text("END-OF-CONTENT\n")]);
    return Ok(());
  }

  method HandleBoolean(out: Sink, depth: nat, content: seq<byte>) returns (status: Outcome<()>)
    modifies out
    ensures out.records == old(out.records) + BooleanOut(content, depth).out
    ensures status == BooleanOut(content, depth).outcome
  {
    if |content| != 1 {
      return Err(BooleanLength(|content|));
    }
    if content[0] == 0 {
      out.Write(depth, [Text("BOOLEAN FALSE\n")]);
    } else {
      out.Write(depth, [Text("BOOLEAN TRUE\n")]);
    }
    return Ok(());
  }

  method HandleBitString(out: Sink, depth: nat, content: seq<byte>) returns (status: Outcome<()>)
    modifies out
    ensures out.records == old(out.records) + BitStringOut(content, depth).out
    ensures status == BitStringOut(content, depth).outcome
  {
    if |content| < 1 {
      return Err(BitStringNoPadding);
    }
    var padding := content[0];
    if padding > 7 {
      return Err(BitStringPadding(padding));
    }
    var pad := [Text("BITSTRING PAD="), Decimal(padding), Text(" ")];
    out.Write(depth, pad);
    PrintOctets(out, depth, content[1..]);
    out.Write(depth, [Text("\n")]);
    AtAppend(depth, pad, OctetsOut(content[1..]));
    AtAppend(depth, pad + OctetsOut(content[1..]), [Text("\n")]);
    return Ok(());
  }

  method HandleNull(out: Sink, depth: nat, content: seq<byte>) returns (status: Outcome<()>)
    modifies out
    ensures out.records == old(out.records) + NullOut(content, depth).out
    ensures status == NullOut(content, depth).outcome
  {
    if |content| != 0 {
      return Err(NullContent);
    }
    out.Write(depth, [Text("NULL\n")]);
    return Ok(());
  }

  method HandleObjectIdentifier(out: Sink, depth: nat, content: seq<byte>) returns (status: Outcome<()>)
    modifies out
    ensures out.records == old(out.records) + ObjectIdentifierOut(content, depth).out
    ensures status == ObjectIdentifierOut(content, depth).outcome
  {
    if |content| < 1 {
      return Err(OidEmpty);
    }
    var later := AccumulateArcs(content[1..]);
    var oid := [content[0] / 40, content[0] % 40] + later;
    out.Write(depth, [Text("OID "), Dotted(oid), Text("\n")]);
    out.Write(depth, [OidName(oid)]);
    AtAppend(depth, [Text("OID "), Dotted(oid), Text("\n")], [OidName(oid)]);
    assert [Text("OID "), Dotted(oid), Text("\n")] + [OidName(oid)] == [Text("OID "), Dotted(oid), Text("\n"), OidName(oid)];
    return Ok(());
  }

  method HandleRelativeOid(out: Sink, depth: nat, content: seq<byte>) returns (status: Outcome<()>)
    modifies out
    ensures out.records == old(out.records) + RelativeOidOut(content, depth).out
    ensures status == RelativeOidOut(content, depth).outcome
  {
    if |content| < 1 {
      return Err(RelativeOidEmpty);
    }
    var oid := AccumulateArcs(content);
    if oid == [] {
      // the source slices the leading '.' off an empty string here
      return Crash;
    }
    out.Write(depth, [Text("RELATIVEOID "), Dotted(oid), Text("\n")]);
    out.Write(depth, [OidName(oid)]);
    AtAppend(depth, [Text("RELATIVEOID "), Dotted(oid), Text("\n")], [OidName(oid)]);
    assert [Text("RELATIVEOID "), Dotted(oid), Text("\n")] + [OidName(oid)] == [Text("RELATIVEOID "), Dotted(oid), Text("\n"), OidName(oid)];
    return Ok(());
  }

  method HandleConverted(out: Sink, depth: nat, name: string, converted: Option<seq<byte>>) returns (status: Outcome<()>)
    modifies out
    ensures out.records == old(out.records) + ConvertedOut(name, converted, depth).out
    ensures status == ConvertedOut(name, converted, depth).outcome
  {
    if converted.None? {
      return Err(Charset);
    }
    HandleString(out, depth, name, converted.value);
    return Ok(());
  }

  /** Runs the arc loop over the octets: seven bits per octet, an arc ends
      at each octet whose top bit is clear. */
  method AccumulateArcs(octets: seq<byte>) returns (arcs: seq<nat>)
    ensures arcs == Arcs(octets)
  {
    arcs := [];
    var build: nat := 0;
    var i := 0;
    while i < |octets|
      invariant 0 <= i <= |octets|
      invariant ArcState(arcs, build) == Scan(octets[..i])
    {
      var v := octets[i];
      assert octets[..i + 1][..i] == octets[..i];
      build := build * 128 + v % 128;
      if v < 128 {
        arcs := arcs + [build];
        build := 0;
      }
      i := i + 1;
    }
    assert octets[..i] == octets;
  }

  /** Writes the INTEGER or ENUMERATED rendering of the content. */
  method HandleInteger(out: Sink, depth: nat, name: string, content: seq<byte>)
    modifies out
    ensures out.records == old(out.records) + At(depth, IntegerOut(name, content))
  {
    if 0 < |content| < 8 && content[0] < 128 {
      var value: nat := 0;
      if content[0] < 128 {
        var i := 0;
        while i < |content|
          invariant 0 <= i <= |content|
          invariant value == BigEndian(content[..i])
        {
          assert content[..i + 1][..i] == content[..i];
          value := value * 256 + content[i];
          i := i + 1;
        }
        assert content[..i] == content;
      }
      out.Write(depth, [Text(name + " "), Decimal(value), Text("\n")]);
    } else if |content| > 8 || |content| == 0 || content[0] >= 128 {
      HandleData(out, depth, name, content);
    }
  }

  /** Writes an opaque value: name, hex dump, line end, hint. */
  method HandleData(out: Sink, depth: nat, name: string, content: seq<byte>)
    modifies out
    ensures out.records == old(out.records) + At(depth, DataOut(name, content))
  {
    out.Write(depth, [Text(name + " ")]);
    PrintOctets(out, depth, content);
    out.Write(depth, [Text("\n")]);
    out.Write(depth, [Hint(content)]);
    AtAppend(depth, [Text(name + " ")], OctetsOut(content));
    AtAppend(depth, [Text(name + " ")] + OctetsOut(content), [Text("\n")]);
    AtAppend(depth, [Text(name + " ")] + OctetsOut(content) + [Text("\n")], [Hint(content)]);
    assert DataOut(name, content) == [Text(name + " ")] + OctetsOut(content) + [Text("\n")] + [Hint(content)];
  }

  /** Writes a text value: name, escaped text, line end. */
  method HandleString(out: Sink, depth: nat, name: string, content: seq<byte>)
    modifies out
    ensures out.records == old(out.records) + At(depth, StringOut(name, content))
  {
    out.Write(depth, [Text(name + " ")]);
    PrintString(out, depth, content);
    out.Write(depth, [Text("\n")]);
    AtAppend(depth, [Text(name + " ")], EscapedPieces(content));
    AtAppend(depth, [Text(name + " ")] + EscapedPieces(content), [Text("\n")]);
  }

  /** Writes the octets as text, escaping line feed and carriage return. */
  method PrintString(out: Sink, depth: nat, content: seq<byte>)
    modifies out
    ensures out.records == old(out.records) + At(depth, EscapedPieces(content))
  {
    assert content[..0] == [];
    var i := 0;
    while i < |content|
      invariant 0 <= i <= |content|
      invariant out.records == old(out.records) + At(depth, EscapedPieces(content[..i]))
    {
      var v := content[i];
      assert content[..i + 1][..i] == content[..i];
      ghost var done := At(depth, EscapedPieces(content[..i]));
      if v == 10 {
        out.Write(depth, [Text("\\n")]);
      } else if v == 13 {
        out.Write(depth, [Text("\\r")]);
      } else {
        out.Write(depth, [Raw([v])]);
      }
      assert out.records == old(out.records) + done + At(depth, [Escaped(v)]);
      AtAppend(depth, EscapedPieces(content[..i]), [Escaped(v)]);
      AppendAssoc(old(out.records), done, At(depth, [Escaped(v)]));
      assert EscapedPieces(content[..i + 1]) == EscapedPieces(content[..i]) + [Escaped(v)];
      i := i + 1;
    }
    assert content[..i] == content;
  }

  /** Writes ':' and then each octet as two upper-case hex digits. */
  method PrintOctets(out: Sink, depth: nat, content: seq<byte>)
    modifies out
    ensures out.records == old(out.records) + At(depth, OctetsOut(content))
  {
    out.Write(depth, [Text(":")]);
    assert content[..0] == [];
    var i := 0;
    while i < |content|
      invariant 0 <= i <= |content|
      invariant out.records == old(out.records) + At(depth, [Text(":")] + HexPieces(content[..i]))
    {
      assert content[..i + 1][..i] == content[..i];
      ghost var done := At(depth, [Text(":")] + HexPieces(content[..i]));
      out.Write(depth, [Hex(content[i])]);
      AppendAssoc(old(out.records), done, At(depth, [Hex(content[i])]));
      AtAppend(depth, [Text(":")] + HexPieces(content[..i]), [Hex(content[i])]);
      AppendAssoc([Text(":")], HexPieces(content[..i]), [Hex(content[i])]);
      assert HexPieces(content[..i + 1]) == HexPieces(content[..i]) + [Hex(content[i])];
      assert [Text(":")] + HexPieces(content[..i + 1]) == [Text(":")] + HexPieces(content[..i]) + [Hex(content[i])];
      i := i + 1;
    }
    assert content[..i] == content;
  }
}
