# der2text's DER decoder, modelled in Dafny

This project models `der/der.go` of der2text. That file is a decoder for
ASN.1 DER tag-length-value streams (ITU-T X.690, section 8.1 for identifier
and length octets, sections 8.19 and 8.20 for object identifiers). It writes
every element it meets as text on an indenting writer:

- the class of its identifier octet (`UNIVERSAL `, `APPLICATION `, …);
- its form (`PRIMITIVE `, `COMPOSED `);
- a rendering of its content chosen by the whole identifier octet.

SET and SEQUENCE content is decoded again, one indentation level deeper.

The model has five modules:

- `Octets` (`octets.dfy`): octets, the big-endian value of an octet string,
  and its inverse.
- `Base128` (`base128.dfy`): the arc accumulation loop of the OBJECT
  IDENTIFIER and RELATIVE-OID cases, its encoder, and the round trip.
- `Output` (`output.dfy`): the writer as a `Sink` class. It holds the
  sequence of records written so far. A record is a depth and a piece of
  output. The writer's `NextLevel()` is the same sink written at depth + 1.
- `Der` (`der.dfy`): the constants, the errors, and the decoder twice over:
  - as functions: `LengthOf`, `ElementOut`, `BodyOut`, `ContentOut`,
    `LeafOut`, `ParseOut` and one function per content interpreter. Each
    says what a step writes and how it ends.
  - as the imperative methods the Go code is: `Parse`, `ParseElement`,
    `DecodeLength`, `HandleInteger`, `PrintString`, `PrintOctets`, …. They
    have the same loops and branches. Each is proved to write exactly what
    its function says and to return exactly its outcome.
- `DerProperties` (`der_properties.dfy`): what the decoder promises, proved
  about those functions. This covers the length round trip, framing, tail
  independence, stream concatenation and nesting depth. It also covers the
  behaviour of each interpreter, including the surprising behaviour the
  code has as written.

A decoding step ends in one of three ways (`Outcome`):

- `Ok`;
- `Err`, one constructor per error message of the source;
- `Crash`, for the one Go runtime panic the model covers. That panic is
  `oid[1:]` on an empty string in the RELATIVE-OID case. The slice panic
  that a wrapped long-form length can cause is not covered (see the line
  on Go's `int` under "Left out"). A panic in nested
  content unwinds through the enclosing elements. A returned error does not
  (see `NestedErrorSwallowed`).

## Model

| member | source | states |
|---|---|---|
| `Der.TagOf` | der/der.go:72 | the tag number field is below 32 |
| `Der.FormOf` | der/der.go:73 | the form bit is either composed (0x20) or primitive (0x00) |
| `Der.ClassOf` | der/der.go:74 | the class bits are one of the four class constants |
| `DerProperties.FieldsRecombine` | der/der.go:71-74 | class, form and tag fields add back up to the identifier octet |
| `Der.LengthOf` | der/der.go:257-274 | the length octets never panic; on success the rest is a proper suffix of the input |
| `Der.DecodeLength` | der/der.go:257-274 | the source's loop returns exactly the length and rest of `LengthOf` (short form, long form, unsatisfiable count) |
| `DerProperties.LengthShortForm` | der/der.go:271-272 | a first octet below 128 is the length and exactly one octet is consumed |
| `DerProperties.LengthLongForm` | der/der.go:259-264 | long form fails if and only if fewer octets follow than the low seven bits announce; 0x80 gives length 0 |
| `DerProperties.LengthRoundTrip` | der/der.go:259-272 | decoding the minimal DER length octets of n gives n and leaves the following octets untouched |
| `DerProperties.LengthAnyLongForm` | der/der.go:259-269 | long form with any count of length octets, minimal or not (82 00 05 reads as 5), decodes to the big-endian value they hold |
| `DerProperties.DecodeEncodedLength` | der/der.go:257-274 | the imperative length decoder inverts the length encoder |
| `DerProperties.LengthIgnoresTail` | der/der.go:257-274 | octets after the length octets only extend the rest |
| `Octets.BigEndianBound` | der/der.go:266-269 | k octets accumulate to a value below 256^k |
| `Octets.BigEndianRoundTrip` | der/der.go:266-269 | the accumulation loop reads back any k-octet big-endian encoding |
| `Octets.MinimalOctetsHold` | der/der.go:266-269 | the minimal octet count holds the value, so the long form above is always usable |
| `Der.ElementOut` | der/der.go:66-255 | a decoded element returns a rest strictly shorter than its input (the measure of the decoding loop) |
| `Der.BodyOut` | der/der.go:102-107 | the returned rest is no longer than the octets after the length octets |
| `DerProperties.FramingErrorsWriteNothing` | der/der.go:67-78 | fewer than two octets, or the long-form tag escape, fail before anything is written |
| `DerProperties.ElementFraming` | der/der.go:98-107 | on success the declared length fits, and the rest is exactly what follows the `contentLen` content octets |
| `DerProperties.TruncatedContentFails` | der/der.go:102-105 | content shorter than its length fails with the short-content error, carrying both counts, after the class and form labels, and never panics |
| `DerProperties.ElementIgnoresTail` | der/der.go:66-255 | an element decodes the same whatever follows it; only the rest grows |
| `DerProperties.ParseConcat` | der/der.go:55-64 | decoding two concatenated streams writes the first's output then the second's, when the first succeeds |
| `Der.Parse` | der/der.go:55-64 | the loop writes exactly `ParseOut`'s records and returns its outcome; the first failure ends it |
| `Der.ParseElement` | der/der.go:66-108 | writes the class and form labels, decodes the length, and returns the rest exactly as `ElementOut` says |
| `Der.HandleBody` | der/der.go:102-108 | the short-content check, the content slice, and the content's rendering, as `BodyOut` says |
| `Der.HandleContent` | der/der.go:109-252 | dispatches on the whole identifier octet and writes exactly `ContentOut` |
| `Der.HandleLeaf` | der/der.go:109-252 | every case other than SET and SEQUENCE writes exactly `LeafOut` |
| `DerProperties.NonUniversalIsUnhandled` | der/der.go:109 | every application, context-specific and private octet reaches the UNHANDLED-TAG default case |
| `DerProperties.ConstructedFormDispatch` | der/der.go:109-252 | exactly which universal octets are interpreted in each form; others are unhandled |
| `DerProperties.ContextSpecificExample` | der/der.go:249-251 | a context-specific constructed [0] is labelled UNHANDLED-TAG=00 from the low five bits |
| `Der.HandleConstructed` | der/der.go:201-206 | writes the SET or SEQUENCE label, then decodes the content one level deeper |
| `DerProperties.NestedErrorSwallowed` | der/der.go:201-206 | a SET or SEQUENCE fails only when its content panics; a returned error is dropped |
| `DerProperties.SequenceElement` | der/der.go:204-206 | a SEQUENCE, with its length in short or long form, writes its labels at its depth and its content at depth + 1, and returns its rest even when the content is malformed |
| `DerProperties.ParseDepth` | der/der.go:55-64 | nothing a decode writes is shallower than the depth it starts at |
| `DerProperties.ElementDepth` | der/der.go:66-255 | nothing an element writes is shallower than its depth |
| `DerProperties.ContentDepth` | der/der.go:109-252 | nothing an element's content writes is shallower than its depth |
| `DerProperties.ConstructedDepth` | der/der.go:201-206 | the SET or SEQUENCE label is at the element's depth and everything after it is at least one level deeper |
| `DerProperties.LeafDepth` | der/der.go:109-252 | the non-recursive interpreters write at the element's own depth |
| `Der.HandleEndOfContent` | der/der.go:110-114 | END-OF-CONTENT with content fails with its length; otherwise writes END-OF-CONTENT |
| `Der.HandleBoolean` | der/der.go:115-123 | BOOLEAN checks the length and writes FALSE or TRUE |
| `DerProperties.BooleanBehaviour` | der/der.go:115-123 | BOOLEAN is accepted if and only if it has one octet; zero is FALSE and any other value is TRUE |
| `DerProperties.EmptyContentTypes` | der/der.go:110-114 | END-OF-CONTENT and NULL are accepted if and only if their content is empty |
| `Der.HandleNull` | der/der.go:139-143 | NULL with content fails; otherwise writes NULL |
| `Der.HandleBitString` | der/der.go:126-136 | BIT STRING checks the padding octet, then writes PAD=n and the hex dump of the remaining octets |
| `DerProperties.BitStringBehaviour` | der/der.go:126-136 | BIT STRING is accepted if and only if the padding octet is present and at most 7, with the matching error otherwise |
| `DerProperties.BitStringDump` | der/der.go:132-134 | an accepted BIT STRING writes the padding as a decimal, ':' and then one hex piece per remaining octet |
| `Der.AccumulateArcs` | der/der.go:151-158 | the arc loop returns exactly the arcs `Base128.Arcs` defines |
| `Base128.ArcsCount` | der/der.go:152-158 | one arc per octet whose top bit is clear |
| `Base128.ArcsEmptyIff` | der/der.go:183-191 | no arc is emitted if and only if every octet has its top bit set |
| `Base128.UnterminatedTailIgnored` | der/der.go:152-158 | octets after the last arc-ending octet never produce an arc |
| `Base128.ArcsRoundTrip` | der/der.go:152-158 | the accumulation decodes the base-128 encoding of any arc list back to that list |
| `Base128.RsaArcsExample` | der/der.go:152-158 | 86 48 86 F7 0D accumulates to the arcs 840 and 113549 |
| `Der.HandleObjectIdentifier` | der/der.go:144-164 | empty content fails; otherwise writes the arcs `content[0]/40`, `content[0]%40`, then the accumulated arcs and the name lookup |
| `DerProperties.OidRoundTrip` | der/der.go:148-158 | an identifier encoded as `40*first+second` followed by base-128 arcs decodes to its arcs |
| `DerProperties.OidTrailingOctetsDropped` | der/der.go:152-158 | trailing octets that still have the continuation bit set are dropped without an error |
| `DerProperties.OidExample` | der/der.go:144-164 | 2A 86 48 86 F7 0D is written as OID 1.2.840.113549 |
| `DerProperties.OidFirstSubidentifierSplit` | der/der.go:148-149 | the first two arcs come from the first octet alone, so a first octet with its top bit set, which ITU-T X.690 section 8.19.4 uses for a second arc of 48 or more under arc 2, gives a first arc of 3 or more |
| `DerProperties.OidX690Example` | der/der.go:144-164 | 2.100.3, whose ITU-T X.690 encoding is 81 34 03, is written as OID 3.9.52.3 |
| `Der.HandleRelativeOid` | der/der.go:177-196 | empty content fails; content that completes no arc panics; otherwise writes the arcs and the name lookup |
| `DerProperties.RelativeOidCrashIff` | der/der.go:183-191 | non-empty RELATIVE-OID content panics if and only if every octet has its top bit set |
| `Der.HandleInteger` | der/der.go:301-317 | INTEGER and ENUMERATED write the decimal, the hex dump, or nothing, as `IntegerOut` says |
| `DerProperties.EightOctetIntegerSilent` | der/der.go:302-313 | nothing is written if and only if the content is eight octets with the sign bit clear |
| `DerProperties.IntegerFitsInt64` | der/der.go:302-311 | the displayed value is the big-endian value of at most seven octets, below 2^56, so the int64 accumulator cannot overflow |
| `DerProperties.IntegerExample` | der/der.go:302-311 | INTEGER 00 FF is shown as 255 |
| `DerProperties.SmallIntegerElement` | der/der.go:66-125 | an INTEGER element of one small octet writes its labels and, through the decimal branch of `handleInteger` (der/der.go:302-311), its value, and returns what follows |
| `DerProperties.TwoIntegersExample` | der/der.go:55-64 | 02 01 05 02 01 07 writes two INTEGER elements in order |
| `Der.HandleUtcTime` | der/der.go:215-223 | UTCTime writes the hex dump, then a date comment for the two Z-terminated shapes |
| `DerProperties.UtcCommentShapes` | der/der.go:217-223 | the comment is written if and only if the content has 13 octets ending in Z or 11 octets ending in Z |
| `Der.HandleConverted` | der/der.go:234-248 | a conversion error fails the element; converted text is written as a string |
| `Der.HandleData` | der/der.go:288-293 | an opaque value writes its name, the hex dump, a line end and the hint |
| `Der.HandleString` | der/der.go:295-299 | a text value writes its name, the escaped text and a line end |
| `Der.PrintString` | der/der.go:276-286 | the loop writes one escaped piece per octet, in order |
| `DerProperties.EscapedHasNoLineBreaks` | der/der.go:276-286 | an octet is passed through unchanged if and only if it is neither LF nor CR |
| `DerProperties.EscapedPiecesAt` | der/der.go:277-285 | the i-th escaped piece is the escape of the i-th octet |
| `Der.PrintOctets` | der/der.go:319-324 | the loop writes ':' and then one hex piece per octet, in order |
| `DerProperties.HexDumpShape` | der/der.go:319-324 | the hex dump is one ':' followed by exactly one piece per octet, with no separators |
| `DerProperties.HexPiecesAt` | der/der.go:321-323 | the i-th hex piece is the i-th octet |
| `Output.Sink.Write` | der/der.go:80-96 | a write appends its pieces, at the given depth, after everything written before |

## Left out

- The indenting writer is left out: its indentation and line layout, and
  `NextLevel()` as an object. The sink keeps (depth, piece) records, and a
  nested level is the same sink written at depth + 1.
- Formatted text (`%d`, `%02X`, `%02x`, the dotted OID string, `Println`'s
  spaces) is kept as structured pieces: `Decimal`, `Hex`, `Dotted`, `Text`.
  Number-to-text rendering is not modelled. The one exception is the
  UNHANDLED-TAG label, which is written out as two lower-case hex digits.
- `hinter.PrintHint` and `oids.Name` are outside this model. Their output is
  the opaque pieces `Hint(octets)` and `OidName(arcs)`. Whether the name
  table knows an identifier, and so whether the `#` line appears, is not
  modelled.
- `utf16ToUtf8` and `utf32ToUtf8` wrap decoders from `golang.org/x/text`,
  which are outside this model. They are a parameter, `Charsets`, with a
  function per converter that returns converted octets or a failure. A
  failure fails the element with `Charset`.
- Go's `int` and `int64` are unbounded here. With more than seven long-form
  length octets, `decodeLength` wraps in Go, and the source can then panic
  on a negative slice bound (`rest[:contentLen]`, der/der.go:106); the
  model has no `Crash` for that panic and reads such a length exactly. Long OID arcs wrap `build` in Go. The model
  computes the exact values in both cases.
- Error messages are the `Error` constructors, carrying the numbers the
  messages print. The text of the messages is left out.
- The `padding < 0` test in the BIT STRING case can never hold for a value
  read from an octet. It has no counterpart in the model.
- `test/test.go` is not part of this model. It is test scaffolding with no
  decoding logic.
- `HandleBody` is the part of `parseElement` after the length octets
  (der/der.go:102-108), split out as a method of its own. `HandleLeaf` is
  the non-recursive part of the same function's `switch`. Both are split
  out so that each proof stays small. The order of writes and checks is
  the source's.
