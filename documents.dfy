/**
 * The document side of src/lib.rs: the header comments of the Document
 * Structuring Conventions 3.0 (and of EPSF 3.0 for encapsulated output),
 * the procedure preamble, `Document::new`, and the `DocumentBuilder`.
 *
 * The writer is an append-only sequence of chunks; the version string and
 * the creation timestamp are parameters.
 */
module Documents {
  import opened Wrappers
  import opened Graphics
  import opened Output
  import opened Procedures
  import Decimal

  /** Multi-page PostScript, or single-page Encapsulated PostScript. */
  datatype DocumentType = PS | EPS

  datatype Document = Document(docType: DocumentType, buffer: seq<Chunk>)

  /** The panics of the builder, as values. */
  datatype BuildError = MissingWriter | NotBuilt

  function BoundingBoxLine(width: nat, height: nat): string {
    "%%BoundingBox: 0 0 " + Decimal.Show(width) + " " + Decimal.Show(height)
  }

  /**
   * The header comment lines. PostScript defers the page count to the
   * trailer; EPS declares its bounding box and exactly one page.
   */
  function Header(docType: DocumentType, width: nat, height: nat, version: string, created: string): (lines: seq<string>)
    ensures |lines| >= 5 && lines[|lines| - 1] == "%%EndComments"
    ensures lines[|lines| - 4] == "%%Creator: pslib " + version
    ensures lines[|lines| - 3] == "%%CreationDate: " + created
    ensures docType == PS ==> |lines| == 5 && lines[0] == "%!PS-Adobe-3.0" && lines[3] == "%%Pages: (atend)"
    ensures docType == EPS ==>
      && |lines| == 6
      && lines[0] == "%!PS-Adobe-3.0 EPSF-3.0"
      && lines[1] == BoundingBoxLine(width, height)
      && lines[4] == "%%Pages: 1"
  {
    match docType
    case PS => [
      "%!PS-Adobe-3.0",
      "%%Creator: pslib " + version,
      "%%CreationDate: " + created,
      "%%Pages: (atend)",
      "%%EndComments"]
    case EPS => [
      "%!PS-Adobe-3.0 EPSF-3.0",
      BoundingBoxLine(width, height),
      "%%Creator: pslib " + version,
      "%%CreationDate: " + created,
      "%%Pages: 1",
      "%%EndComments"]
  }

  /** One `Text` chunk per procedure body, in the given order. */
  function Bodies(order: seq<Procedure>): (chunks: seq<Chunk>)
    ensures |chunks| == |order|
    ensures forall i :: 0 <= i < |order| ==> chunks[i] == Text(order[i].body)
  {
    if order == [] then [] else [Text(order[0].body)] + Bodies(order[1..])
  }

  /** `order` lists every procedure of `procs` exactly once. */
  ghost predicate Enumerates(order: seq<Procedure>, procs: set<Procedure>) {
    |order| == |procs| && forall p :: p in order <==> p in procs
  }

  /**
   * Writes the body of every procedure in `procs`, each once, in whatever
   * order the map yields them; `order` is that order.
   */
  method WriteBodies(sink: seq<Chunk>, procs: set<Procedure>) returns (out: seq<Chunk>, ghost order: seq<Procedure>)
    ensures Enumerates(order, procs)
    ensures out == sink + Bodies(order)
    ensures |out| == |sink| + |procs| && out[..|sink|] == sink
  {
    out := sink;
    order := [];
    var rest := procs;
    while rest != {}
      invariant rest <= procs
      invariant forall p :: p in order <==> p in procs && p !in rest
      invariant |order| + |rest| == |procs|
      invariant out == sink + Bodies(order)
      decreases |rest|
    {
      var p :| p in rest;
      BodiesSnoc(order, p);
      out := out + [Text(p.body)];
      order := order + [p];
      rest := rest - {p};
    }
  }

  lemma {:induction false} BodiesSnoc(order: seq<Procedure>, p: Procedure)
    ensures Bodies(order + [p]) == Bodies(order) + [Text(p.body)]
  {
    var chunks := Bodies(order + [p]);
    assert forall i :: 0 <= i < |order| ==> chunks[i] == Text(order[i].body);
  }

  /**
   * `Document::new`: a PostScript document whose writer receives the
   * PostScript header and then the bodies of the built-in `rect` and `line`
   * procedures, each once, in either order.
   */
  method NewDocument(writer: seq<Chunk>, version: string, created: string) returns (doc: Document)
    ensures doc.docType == PS
    ensures |doc.buffer| == |writer| + 3 && doc.buffer[..|writer|] == writer
    ensures doc.buffer[|writer|] == Directives(Header(PS, 0, 0, version, created))
    ensures multiset(doc.buffer[|writer| + 1..]) == multiset{Text(RectProcedure.body), Text(LineProcedure.body)}
  {
    var head := writer + [Directives(Header(PS, 0, 0, version, created))];
    var registry := ProcedureRegistry.WithBuiltins();
    var buffer;
    ghost var order;
    buffer, order := WriteBodies(head, registry.ListProcedures());
    assert RectProcedure.name != LineProcedure.name;
    PairBodies(head, order, RectProcedure, LineProcedure);
    assert head[..|writer|] == writer;
    doc := Document(PS, buffer);
  }

  /**
   * Whatever order two distinct procedures come in, writing their bodies
   * after `head` adds both, once each.
   */
  lemma PairBodies(head: seq<Chunk>, order: seq<Procedure>, p: Procedure, q: Procedure)
    requires p != q && Enumerates(order, {p, q})
    ensures |head + Bodies(order)| == |head| + 2
    ensures multiset((head + Bodies(order))[|head|..]) == multiset{Text(p.body), Text(q.body)}
  {
    assert (head + Bodies(order))[|head|..] == Bodies(order);
    assert p in order && q in order;
    if order[0] == p {
      assert order == [p, q];
    } else {
      assert order == [q, p];
    }
  }

  /**
   * The step `load_procedures` performs on a builder's fields: it fails
   * unless the builder has been built; otherwise it writes every body of
   * `registry`, and fails for want of a writer only when there is a body to
   * write. `next` is the writer afterwards.
   */
  method LoadStep(built: bool, buffer: Option<seq<Chunk>>, registry: ProcedureRegistry)
    returns (outcome: Outcome<BuildError>, next: Option<seq<Chunk>>)
    requires registry.Valid()
    ensures !built ==> outcome == Fail(NotBuilt) && next == buffer
    ensures built && buffer.None? ==>
      next == None && outcome == (if registry.procedures == map[] then Pass else Fail(MissingWriter))
    ensures built && buffer.Some? ==>
      outcome == Pass && next.Some? &&
      exists order :: Enumerates(order, registry.ListProcedures()) && next.value == buffer.value + Bodies(order)
  {
    next := buffer;
    if !built {
      return Fail(NotBuilt), next;
    }
    var procs := registry.ListProcedures();
    if buffer.None? {
      if procs != {} {
        assert registry.procedures != map[] by {
          var p :| p in procs;
          assert p.name in registry.procedures;
        }
        return Fail(MissingWriter), next;
      }
      return Pass, next;
    }
    var out, order := WriteBodies(buffer.value, procs);
    next := Some(out);
    outcome := Pass;
  }

  /** `DocumentBuilder`: collects the settings of a document before `Build` writes its header. */
  class DocumentBuilder {
    var docType: DocumentType
    var buffer: Option<seq<Chunk>>
    var width: nat
    var height: nat
    var hasBuilt: bool
    /**
     * Set by `Build`. The source's `build` takes the builder by value, so no
     * caller can use a builder after building it: every method requires
     * that it has not been consumed.
     */
    ghost var consumed: bool

    /** Only a consumed builder has been built. */
    ghost predicate Valid()
      reads this
    {
      hasBuilt ==> consumed
    }

    /** `builder()`: PostScript, no writer, a 0 by 0 box, not built. */
    constructor ()
      ensures Valid() && !consumed
      ensures docType == PS && buffer == None && width == 0 && height == 0 && !hasBuilt
    {
      docType := PS;
      buffer := None;
      width := 0;
      height := 0;
      hasBuilt := false;
      consumed := false;
    }

    /** The bounding box, each side raised to at least 1. */
    method BoundingBox(width: int, height: int)
      requires Valid() && !consumed
      modifies this`width, this`height
      ensures Valid() && !consumed
      ensures this.width == AtLeastInt(width, 1) && this.height == AtLeastInt(height, 1)
    {
      this.width := AtLeastInt(width, 1);
      this.height := AtLeastInt(height, 1);
    }

    method SetDocumentType(docType: DocumentType)
      requires Valid() && !consumed
      modifies this`docType
      ensures Valid() && !consumed
      ensures this.docType == docType
    {
      this.docType := docType;
    }

    method Writer(writer: seq<Chunk>)
      requires Valid() && !consumed
      modifies this`buffer
      ensures Valid() && !consumed
      ensures buffer == Some(writer)
    {
      buffer := Some(writer);
    }

    /**
     * `load_procedures`: the step above on this builder's fields. Only
     * `Build` sets `hasBuilt`, and it consumes the builder, so on every
     * builder a caller can still hold the step fails with `NotBuilt` and
     * writes nothing.
     */
    method LoadProcedures(registry: ProcedureRegistry) returns (outcome: Outcome<BuildError>)
      requires Valid() && !consumed && registry.Valid()
      ensures outcome == Fail(NotBuilt)
    {
      var next;
      outcome, next := LoadStep(hasBuilt, buffer, registry);
      assert next == buffer;
    }

    /**
     * `build`: fails without a writer; otherwise hands the writer, with the
     * header for the chosen document type written to it, to a new Document,
     * and marks the builder as built (the writer has moved out of it). Either
     * way the builder is consumed.
     */
    method Build(version: string, created: string) returns (result: Result<Document, BuildError>)
      requires Valid() && !consumed
      modifies this`buffer, this`hasBuilt, this`consumed
      ensures Valid() && consumed
      ensures old(buffer).None? ==> result == Failure(MissingWriter) && buffer == None && !hasBuilt
      ensures old(buffer).Some? ==>
        && result == Success(Document(docType, old(buffer).value + [Directives(Header(docType, width, height, version, created))]))
        && hasBuilt && buffer == None
    {
      consumed := true;
      if buffer.None? {
        return Failure(MissingWriter);
      }
      var doc := Document(docType, buffer.value + [Directives(Header(docType, width, height, version, created))]);
      buffer := None;
      hasBuilt := true;
      result := Success(doc);
    }
  }

  /**
   * The builder chain of the encapsulated-document scenario: type EPS, a
   * writer, then `load_procedures` before `build`. The call fails with
   * `NotBuilt` (a panic in the source), since nothing has been built yet.
   */
  method LoadBeforeBuild(writer: seq<Chunk>) returns (outcome: Outcome<BuildError>)
    ensures outcome == Fail(NotBuilt)
  {
    var builder := new DocumentBuilder();
    builder.SetDocumentType(EPS);
    builder.Writer(writer);
    var registry := ProcedureRegistry.WithBuiltins();
    outcome := builder.LoadProcedures(registry);
  }

  /**
   * Building an EPS document with a 500 by 300 box writes the EPS header,
   * bounding box included, after whatever the writer already holds; that
   * bounding box reads `%%BoundingBox: 0 0 500 300`.
   */
  method BuildEps(writer: seq<Chunk>, version: string, created: string) returns (result: Result<Document, BuildError>)
    ensures result.Success? && result.value.docType == EPS
    ensures result.value.buffer == writer + [Directives(Header(EPS, 500, 300, version, created))]
    ensures BoundingBoxLine(500, 300) == "%%BoundingBox: 0 0 500 300"
  {
    Decimal.ShowFiveHundredAndThreeHundred();
    var builder := new DocumentBuilder();
    builder.SetDocumentType(EPS);
    builder.Writer(writer);
    builder.BoundingBox(500, 300);
    result := builder.Build(version, created);
  }
}
