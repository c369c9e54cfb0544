/**
 * src/image_registry.rs: an `ImageRegistry` maps an image's file name to
 * the PostScript procedure name `imagerN` that will draw it, where N is a
 * counter the registry bumps on every `add`.
 */
module Images {
  import opened Wrappers
  import Decimal

  /** The largest value of the registry's `u32` counter. */
  const U32_MAX: nat := 0xFFFF_FFFF

  /** A file-system path together with its final component, when it has one. */
  datatype ImagePath = ImagePath(path: string, fileName: Option<string>)

  datatype RawImage = RawImage(fileName: string, filePath: string, procedureName: string)

  /** A path without a file name, or a counter that would pass `U32_MAX`. */
  datatype ImageError = NoFileName | CountOverflow

  /** The procedure name for counter value `n`. */
  function ProcedureName(n: nat): (name: string)
    ensures |name| > 6 && name[..6] == "imager"
    ensures forall i :: 6 <= i < |name| ==> Decimal.IsDigit(name[i])
  {
    "imager" + Decimal.Show(n)
  }

  /** Different counter values give different procedure names. */
  lemma ProcedureNamesDistinct(a: nat, b: nat)
    requires a != b
    ensures ProcedureName(a) != ProcedureName(b)
  {
    Decimal.ShowInjective(a, b);
    assert ProcedureName(a)[6..] == Decimal.Show(a);
    assert ProcedureName(b)[6..] == Decimal.Show(b);
  }

  /**
   * Every entry is stored under its own file name, with the procedure name
   * of the counter value it was added under; no two entries share a counter
   * value, and each is at most the current count.
   */
  ghost predicate Consistent(images: map<string, RawImage>, count: nat, issuedAt: map<string, nat>) {
    && count <= U32_MAX
    && images.Keys == issuedAt.Keys
    && (forall f :: f in images ==> images[f].fileName == f)
    && (forall f :: f in issuedAt ==> 1 <= issuedAt[f] <= count)
    && (forall f :: f in images ==> images[f].procedureName == ProcedureName(issuedAt[f]))
    && (forall f, g :: f in issuedAt && g in issuedAt && f != g ==> issuedAt[f] != issuedAt[g])
  }

  /** Storing an entry under the next counter value keeps the registry consistent. */
  lemma InsertConsistent(images: map<string, RawImage>, count: nat, issuedAt: map<string, nat>, f: string, path: string)
    requires Consistent(images, count, issuedAt) && count < U32_MAX
    ensures Consistent(images[f := RawImage(f, path, ProcedureName(count + 1))], count + 1, issuedAt[f := count + 1])
  {
  }

  class ImageRegistry {
    var images: map<string, RawImage>
    var count: nat
    /** The counter value each stored entry was added under. */
    ghost var issuedAt: map<string, nat>

    ghost predicate Valid()
      reads this
    {
      Consistent(images, count, issuedAt)
    }

    /** `new`: no images, counter at 0. */
    constructor ()
      ensures Valid()
      ensures images == map[] && count == 0
    {
      images := map[];
      count := 0;
      issuedAt := map[];
    }

    /**
     * `get_procedure_id`: the procedure name of the image stored under
     * `fileName`, which is `imagerN` for some counter value N handed out so
     * far; nothing for a file name never added.
     */
    function GetProcedureId(fileName: string): (id: Option<string>)
      requires Valid()
      reads this
      ensures id.None? <==> fileName !in images
      ensures id.Some? ==> 1 <= issuedAt[fileName] <= count && id.value == ProcedureName(issuedAt[fileName])
    {
      if fileName in images then Some(images[fileName].procedureName) else None
    }

    /**
     * `add`: fails on a path without a file name, and when the `u32` counter
     * would overflow; otherwise bumps the counter and stores the image under
     * its file name with procedure name `imager<count>`, replacing any
     * earlier entry of that name and leaving the others alone.
     */
    method Add(path: ImagePath) returns (outcome: Outcome<ImageError>)
      requires Valid()
      modifies this
      ensures Valid()
      ensures path.fileName.None? ==> outcome == Fail(NoFileName) && images == old(images) && count == old(count)
      ensures path.fileName.Some? && old(count) == U32_MAX ==>
        outcome == Fail(CountOverflow) && images == old(images) && count == old(count)
      ensures path.fileName.Some? && old(count) < U32_MAX ==>
        && outcome == Pass
        && count == old(count) + 1
        && images == old(images)[path.fileName.value := RawImage(path.fileName.value, path.path, ProcedureName(count))]
        && GetProcedureId(path.fileName.value) == Some(ProcedureName(count))
        && forall g :: g != path.fileName.value ==> GetProcedureId(g) == old(GetProcedureId(g))
    {
      if path.fileName.None? {
        return Fail(NoFileName);
      }
      if count == U32_MAX {
        return Fail(CountOverflow);
      }
      var f := path.fileName.value;
      InsertConsistent(images, count, issuedAt, f, path.path);
      count := count + 1;
      images := images[f := RawImage(f, path.path, ProcedureName(count))];
      issuedAt := issuedAt[f := count];
      outcome := Pass;
    }

    /** No two stored images share a procedure name. */
    lemma EntryNamesDistinct(f: string, g: string)
      requires Valid() && f in images && g in images && f != g
      ensures images[f].procedureName != images[g].procedureName
    {
      ProcedureNamesDistinct(issuedAt[f], issuedAt[g]);
    }
  }
}
