/** The output sink the decoder writes to. The indenting writer itself is
    not part of this model: every write is recorded, in order, together with
    the nesting depth it was made at, and the formatted values (`%d`, `%02X`,
    a dotted arc string, a name lookup, a hint) are kept as structured
    pieces rather than rendered to text. */
module Output {
  import opened Octets

  /** What one write puts on the sink. */
  datatype Piece =
    | Text(s: string)            // fixed text, for instance "UNIVERSAL " or "NULL\n"
    | Raw(bytes: seq<byte>)      // octets passed through unchanged
    | Decimal(n: nat)            // a number printed in decimal
    | Hex(b: byte)               // one octet printed as two upper-case hex digits
    | Dotted(arcs: seq<nat>)     // an arc list printed with '.' between arcs
    | OidName(arcs: seq<nat>)    // "# <name>" when the name table knows this identifier
    | Hint(bytes: seq<byte>)     // whatever the hint renderer prints for these octets

  /** One write, made at a nesting depth. */
  datatype Record = Record(depth: nat, piece: Piece)

  /** The records for writing the pieces ps, in order, at one depth. */
  function At(depth: nat, ps: seq<Piece>): (rs: seq<Record>)
    ensures |rs| == |ps|
  {
    if ps == [] then [] else At(depth, ps[..|ps| - 1]) + [Record(depth, ps[|ps| - 1])]
  }

  /** Writing two runs of pieces one after the other at the same depth. */
  lemma {:induction false} AtAppend(depth: nat, ps: seq<Piece>, qs: seq<Piece>)
    ensures At(depth, ps + qs) == At(depth, ps) + At(depth, qs)
  {
    if qs == [] {
      assert ps + qs == ps;
    } else {
      var init := qs[..|qs| - 1];
      assert (ps + qs)[..|ps + qs| - 1] == ps + init;
      AtAppend(depth, ps, init);
    }
  }

  /** The sink: everything written so far, at every depth. A nested level
      (the writer's NextLevel) is this same sink written at depth + 1. */
  class Sink {
    var records: seq<Record>

    constructor ()
      ensures records == []
    {
      records := [];
    }

    /** Writes the pieces at the given depth. */
    method Write(depth: nat, ps: seq<Piece>)
      modifies this
      ensures records == old(records) + At(depth, ps)
    {
      records := records + At(depth, ps);
    }
  }
}
