/** The GenBank reader of the controller: it walks the features of one parsed
    record, keeps the coding sequences (feature key "CDS"), turns each into a
    Protein record and folds each protein's embedding into one cluster vector.

    The record arrives already parsed: a sequence of features and the parent
    nucleotide sequence. The embedding model is the parameter `embed`. */
module ReadGenBank {
  import opened Results

  type Qualifiers = map<string, seq<string>>

  /** One feature of a parsed GenBank record: its key, its qualifiers (each a
      list of values), its strand (absent when the parser gives none) and its
      zero-based, half-open location. */
  datatype Feature = Feature(
    kind: string,
    qualifiers: Qualifiers,
    strand: Option<int>,
    start: nat,
    stop: nat)

  /** The `[start, stop]` pair stored in a protein. */
  datatype Span = Span(start: nat, stop: nat)

  /** The `Protein` named tuple, with its fields in the tuple's order. */
  datatype Protein = Protein(
    gene: string,
    proteinId: string,
    locusTag: string,
    product: string,
    dna: string,
    translation: string,
    location: Span,
    strand: int,
    description: string)

  /** The six qualifier locals of the loop. They are never reset between
      iterations; `None` is a local that has not been assigned yet. */
  datatype Locals = Locals(
    translation: Option<string>,
    locus: Option<string>,
    protId: Option<string>,
    product: Option<string>,
    description: Option<string>,
    gene: Option<string>)

  /** What can make reading a record raise. */
  datatype LoadError =
    | EmptyQualifier(key: string)        // `qualifiers[key][0]` on an empty list
    | StrandNotInt                       // `int(None)` for a feature without a strand
    | UnboundLocal(name: string)         // a qualifier local read before any assignment
    | NoAttribute(owner: string, attribute: string)  // used by the as-written models

  /** The fields of the reader while the loop runs. */
  datatype ScanState = ScanState(locals: Locals, cluster: seq<Protein>, vector: seq<real>)

  const CdsKey := "CDS"

  /** The qualifier keys the loop reads, in the order it reads them. */
  const QualifierKeys: seq<string> :=
    ["translation", "locus_tag", "protein_id", "product", "description", "gene"]

  const NoLocals := Locals(None, None, None, None, None, None)

  const Initial := ScanState(NoLocals, [], [])

  predicate IsCds(f: Feature) {
    f.kind == CdsKey
  }

  /** The embedding model returns vectors of one fixed length. */
  ghost predicate FixedWidth(embed: string -> seq<real>, dim: nat) {
    forall t :: |embed(t)| == dim
  }

  /** The vector is empty until the first CDS and has the embedding length after. */
  predicate VectorShape(st: ScanState, dim: nat) {
    |st.vector| == if st.cluster == [] then 0 else dim
  }

  // ---------------------------------------------------------------------
  // Qualifiers and locals

  /** The local that a qualifier key is read into. */
  function Local(l: Locals, key: string): Option<string> {
    if key == "translation" then l.translation
    else if key == "locus_tag" then l.locus
    else if key == "protein_id" then l.protId
    else if key == "product" then l.product
    else if key == "description" then l.description
    else if key == "gene" then l.gene
    else None
  }

  /** The protein field that holds a qualifier key's value. */
  function Qualifier(p: Protein, key: string): string {
    if key == "translation" then p.translation
    else if key == "locus_tag" then p.locusTag
    else if key == "protein_id" then p.proteinId
    else if key == "product" then p.product
    else if key == "description" then p.description
    else if key == "gene" then p.gene
    else ""
  }

  /** Every qualifier local has been assigned. */
  predicate AllBound(l: Locals) {
    && l.translation.Some? && l.locus.Some? && l.protId.Some?
    && l.product.Some? && l.description.Some? && l.gene.Some?
  }

  /** A key the qualifiers carry has at least one value. */
  predicate HasValue(q: Qualifiers, key: string) {
    key in q ==> |q[key]| > 0
  }

  /** Every qualifier the loop reads has at least one value where present. */
  predicate NonEmptyQualifiers(q: Qualifiers) {
    && HasValue(q, "translation") && HasValue(q, "locus_tag") && HasValue(q, "protein_id")
    && HasValue(q, "product") && HasValue(q, "description") && HasValue(q, "gene")
  }

  /** The qualifiers carry all six keys. */
  predicate HasAllKeys(q: Qualifiers) {
    && "translation" in q && "locus_tag" in q && "protein_id" in q
    && "product" in q && "description" in q && "gene" in q
  }

  /** Every local is assigned once the qualifiers `q` have been read over `l`. */
  predicate Covers(l: Locals, q: Qualifiers) {
    && ("translation" in q || l.translation.Some?)
    && ("locus_tag" in q || l.locus.Some?)
    && ("protein_id" in q || l.protId.Some?)
    && ("product" in q || l.product.Some?)
    && ("description" in q || l.description.Some?)
    && ("gene" in q || l.gene.Some?)
  }

  /** The position of the first item of `items` that `bad` holds of, if any. */
  function FirstIndex<T>(items: seq<T>, bad: T -> bool): (r: Option<nat>)
    ensures r.None? <==> forall i :: 0 <= i < |items| ==> !bad(items[i])
    ensures r.Some? ==> r.value < |items| && bad(items[r.value])
    ensures r.Some? ==> forall i :: 0 <= i < r.value ==> !bad(items[i])
    decreases |items|
  {
    if items == [] then None
    else if bad(items[0]) then Some(0)
    else
      match FirstIndex(items[1..], bad)
      case None => None
      case Some(i) => Some(i + 1)
  }

  /** The first key, in the order the loop reads them, whose value list is empty. */
  function FirstEmptyKey(q: Qualifiers): Option<string> {
    match FirstIndex(QualifierKeys, key => !HasValue(q, key))
    case None => None
    case Some(i) => Some(QualifierKeys[i])
  }

  /** One `if key in qualifiers: local = qualifiers[key][0]` statement. */
  function FirstValue(q: Qualifiers, key: string, current: Option<string>): (r: Result<Option<string>, LoadError>)
    ensures key !in q ==> r == Ok(current)
    ensures key in q && |q[key]| > 0 ==> r == Ok(Some(q[key][0]))
    ensures key in q && |q[key]| == 0 ==> r == Err(EmptyQualifier(key))
  {
    if key !in q then Ok(current)
    else if |q[key]| == 0 then Err(EmptyQualifier(key))
    else Ok(Some(q[key][0]))
  }

  /** The six qualifier statements of one CDS iteration: each present key
      overwrites its local with the key's first value; absent keys leave the
      local as the previous CDS left it. */
  function ReadQualifiers(l: Locals, q: Qualifiers): (r: Result<Locals, LoadError>)
    ensures r.Ok? <==> NonEmptyQualifiers(q)
    ensures r.Ok? ==> forall key :: key in QualifierKeys ==>
      Local(r.value, key) == if key in q then Some(q[key][0]) else Local(l, key)
    ensures r.Err? ==> r.error.EmptyQualifier? && r.error.key in q && |q[r.error.key]| == 0
    ensures r.Err? ==> r.error.EmptyQualifier? && FirstEmptyKey(q) == Some(r.error.key)
  {
    var translation :- FirstValue(q, "translation", l.translation);
    var locus :- FirstValue(q, "locus_tag", l.locus);
    var protId :- FirstValue(q, "protein_id", l.protId);
    var product :- FirstValue(q, "product", l.product);
    var description :- FirstValue(q, "description", l.description);
    var gene :- FirstValue(q, "gene", l.gene);
    Ok(Locals(translation, locus, protId, product, description, gene))
  }

  /** `int(record.strand)`: a strand the parser left out cannot be converted. */
  function IntStrand(s: Option<int>): (r: Result<int, LoadError>)
    ensures r.Ok? <==> s.Some?
    ensures r.Ok? ==> r.value == s.value
  {
    match s
    case None => Err(StrandNotInt)
    case Some(v) => Ok(v)
  }

  /** Reading a local: an unassigned one raises. */
  function Bound(v: Option<string>, name: string): (r: Result<string, LoadError>)
    ensures v.Some? ==> r == Ok(v.value)
    ensures v.None? ==> r == Err(UnboundLocal(name))
  {
    match v
    case None => Err(UnboundLocal(name))
    case Some(s) => Ok(s)
  }

  /** A Python slice `s[start:stop]` with non-negative bounds: both bounds are
      clamped to the length and a reversed range is empty. */
  function Slice(s: string, start: nat, stop: nat): (r: string)
    ensures |r| <= |s|
    ensures start <= stop <= |s| ==> r == s[start..stop] && |r| == stop - start
    ensures start <= stop && start <= |s| <= stop ==> r == s[start..]
    ensures stop <= start || |s| <= start ==> r == []
  {
    var lo := if start < |s| then start else |s|;
    var hi := if stop < |s| then stop else |s|;
    if lo <= hi then s[lo..hi] else []
  }

  /** The qualifier locals in the order the `Protein(...)` call passes them,
      each as its qualifier key and its variable name. */
  const ArgumentOrder: seq<(string, string)> := [
    ("gene", "gene"), ("protein_id", "prot_id"), ("locus_tag", "locus"),
    ("product", "product"), ("translation", "translation"), ("description", "description")]

  /** The name of the first unassigned local in argument order. */
  function FirstUnbound(l: Locals): Option<string> {
    match FirstIndex(ArgumentOrder, (a: (string, string)) => Local(l, a.0).None?)
    case None => None
    case Some(i) => Some(ArgumentOrder[i].1)
  }

  /** The `Protein(...)` call: its arguments are evaluated left to right, so the
      first unassigned local in argument order is the one that raises. */
  function MakeProtein(l: Locals, dna: string, start: nat, stop: nat, strand: int): (r: Result<Protein, LoadError>)
    ensures r.Ok? <==> AllBound(l)
    ensures r.Ok? ==> forall key :: key in QualifierKeys ==> Local(l, key) == Some(Qualifier(r.value, key))
    ensures r.Ok? ==> r.value.dna == dna && r.value.location == Span(start, stop) && r.value.strand == strand
    ensures r.Err? ==> r.error.UnboundLocal? && FirstUnbound(l) == Some(r.error.name)
  {
    var gene :- Bound(l.gene, "gene");
    var protId :- Bound(l.protId, "prot_id");
    var locus :- Bound(l.locus, "locus");
    var product :- Bound(l.product, "product");
    var translation :- Bound(l.translation, "translation");
    var description :- Bound(l.description, "description");
    Ok(Protein(gene, protId, locus, product, dna, translation, Span(start, stop), strand, description))
  }

  /** The part of one CDS iteration that can raise: read the qualifiers, convert
      the strand, slice the parent sequence and build the protein. It returns the
      locals as they stand afterwards and the protein. */
  function ReadCds(l: Locals, f: Feature, parent: string): (r: Result<(Locals, Protein), LoadError>)
    ensures r.Ok? <==> NonEmptyQualifiers(f.qualifiers) && f.strand.Some? && Covers(l, f.qualifiers)
    ensures r.Ok? ==> forall key :: key in QualifierKeys ==>
      Local(r.value.0, key) == Some(Qualifier(r.value.1, key)) &&
      Local(r.value.0, key) == if key in f.qualifiers then Some(f.qualifiers[key][0]) else Local(l, key)
    ensures r.Ok? ==> Describes(r.value.1, f, parent)
    ensures r.Err? ==>
      if !NonEmptyQualifiers(f.qualifiers) then
        r.error.EmptyQualifier? && FirstEmptyKey(f.qualifiers) == Some(r.error.key)
      else if f.strand.None? then r.error == StrandNotInt
      else r.error.UnboundLocal? && FirstUnbound(ReadQualifiers(l, f.qualifiers).value) == Some(r.error.name)
  {
    var locals :- ReadQualifiers(l, f.qualifiers);
    var strand :- IntStrand(f.strand);
    var p :- MakeProtein(locals, Slice(parent, f.start, f.stop), f.start, f.stop, strand);
    Ok((locals, p))
  }

  /** A protein records its feature's location, strand and the slice of the
      parent sequence under that location. */
  predicate Describes(p: Protein, f: Feature, parent: string) {
    && p.location == Span(f.start, f.stop)
    && f.strand == Some(p.strand)
    && p.dna == Slice(parent, f.start, f.stop)
  }

  // ---------------------------------------------------------------------
  // Vector accumulation

  /** `np.add` on two vectors of one length. */
  function Add(a: seq<real>, b: seq<real>): (r: seq<real>)
    requires |a| == |b|
    ensures |r| == |a|
    ensures forall i :: 0 <= i < |r| ==> r[i] == a[i] + b[i]
  {
    seq(|a|, i requires 0 <= i < |a| => a[i] + b[i])
  }

  /** An empty vector is replaced by the first embedding; later embeddings are
      added elementwise. */
  function Accumulate(acc: seq<real>, v: seq<real>): (r: seq<real>)
    requires |acc| == 0 || |acc| == |v|
    ensures |r| == |v|
    ensures |acc| == 0 ==> r == v
    ensures forall i :: 0 <= i < |acc| ==> r[i] == acc[i] + v[i]
  {
    if |acc| == 0 then v else Add(v, acc)
  }

  /** Sum of column `j` over a list of vectors (an independent definition of
      the elementwise sum). */
  function ColumnSum(vs: seq<seq<real>>, j: nat): real {
    if vs == [] then 0.0
    else
      var last := vs[|vs| - 1];
      ColumnSum(vs[..|vs| - 1], j) + (if j < |last| then last[j] else 0.0)
  }

  /** The embedding of every protein's translation, in cluster order. */
  function Embeddings(cluster: seq<Protein>, embed: string -> seq<real>): (vs: seq<seq<real>>)
    ensures |vs| == |cluster|
    ensures forall k :: 0 <= k < |cluster| ==> vs[k] == embed(cluster[k].translation)
  {
    seq(|cluster|, k requires 0 <= k < |cluster| => embed(cluster[k].translation))
  }

  // ---------------------------------------------------------------------
  // The loop as a fold

  /** One iteration of the loop over features. */
  function Step(st: ScanState, f: Feature, parent: string, embed: string -> seq<real>, dim: nat): (r: Result<ScanState, LoadError>)
    requires FixedWidth(embed, dim) && VectorShape(st, dim)
    ensures r.Ok? ==> VectorShape(r.value, dim)
    ensures !IsCds(f) ==> r == Ok(st)
  {
    if !IsCds(f) then Ok(st)
    else
      var lp :- ReadCds(st.locals, f, parent);
      var v := embed(lp.1.translation);
      Ok(ScanState(lp.0, st.cluster + [lp.1], Accumulate(st.vector, v)))
  }

  /** The loop over the features of a record, in file order, stopping at the
      first error. */
  function ScanFeatures(fs: seq<Feature>, parent: string, embed: string -> seq<real>, dim: nat): (r: Result<ScanState, LoadError>)
    requires FixedWidth(embed, dim)
    ensures r.Ok? ==> VectorShape(r.value, dim)
    decreases |fs|
  {
    if fs == [] then Ok(Initial)
    else
      var st :- ScanFeatures(fs[..|fs| - 1], parent, embed, dim);
      Step(st, fs[|fs| - 1], parent, embed, dim)
  }

  /** The coding-sequence features of a record, in file order. */
  function Cds(fs: seq<Feature>): (r: seq<Feature>)
    ensures |r| <= |fs|
  {
    if fs == [] then []
    else Cds(fs[..|fs| - 1]) + (if IsCds(fs[|fs| - 1]) then [fs[|fs| - 1]] else [])
  }

  /** The filter keeps exactly the CDS features, and is empty exactly when the
      record has none. */
  lemma {:induction false} CdsMembers(fs: seq<Feature>)
    ensures forall f :: f in Cds(fs) <==> f in fs && IsCds(f)
    ensures Cds(fs) == [] <==> forall k :: 0 <= k < |fs| ==> !IsCds(fs[k])
    decreases |fs|
  {
    if fs != [] {
      var init, last := fs[..|fs| - 1], fs[|fs| - 1];
      assert fs == init + [last];
      CdsMembers(init);
      assert forall k :: 0 <= k < |init| ==> fs[k] == init[k];
    }
  }

  /** Filtering distributes over concatenation: the CDS features of a record
      are those of its first part followed by those of its second, so the
      filter keeps file order and keeps every CDS once. */
  lemma {:induction false} CdsAppend(fs: seq<Feature>, gs: seq<Feature>)
    ensures Cds(fs + gs) == Cds(fs) + Cds(gs)
    decreases |gs|
  {
    if gs == [] {
      assert fs + gs == fs;
    } else {
      var hs := fs + gs;
      assert hs[..|hs| - 1] == fs + gs[..|gs| - 1];
      assert hs[|hs| - 1] == gs[|gs| - 1];
      CdsAppend(fs, gs[..|gs| - 1]);
      assert Cds(hs) == Cds(fs + gs[..|gs| - 1]) + (if IsCds(gs[|gs| - 1]) then [gs[|gs| - 1]] else []);
    }
  }

  /** A record the loop gets through: every CDS has a value for each qualifier
      key it carries and a strand, and the first CDS carries all six keys. */
  predicate Readable(fs: seq<Feature>) {
    var cds := Cds(fs);
    && (forall k :: 0 <= k < |cds| ==> NonEmptyQualifiers(cds[k].qualifiers) && cds[k].strand.Some?)
    && (|cds| > 0 ==> HasAllKeys(cds[0].qualifiers))
  }

  // ---------------------------------------------------------------------
  // Properties of the loop

  /** Features other than CDS change nothing: the loop over a record gives the
      same outcome as the loop over its CDS features alone. */
  lemma {:induction false} NonCdsIgnored(fs: seq<Feature>, parent: string, embed: string -> seq<real>, dim: nat)
    requires FixedWidth(embed, dim)
    ensures ScanFeatures(fs, parent, embed, dim) == ScanFeatures(Cds(fs), parent, embed, dim)
    decreases |fs|
  {
    if fs != [] {
      var init, f := fs[..|fs| - 1], fs[|fs| - 1];
      NonCdsIgnored(init, parent, embed, dim);
      if IsCds(f) {
        var c := Cds(init) + [f];
        assert Cds(fs) == c;
        assert c[..|c| - 1] == Cds(init);
      } else {
        assert Cds(fs) == Cds(init);
      }
    }
  }

  /** The cluster lists one protein per CDS feature, in file order, each
      describing its feature. */
  predicate Tracks(cluster: seq<Protein>, cds: seq<Feature>, parent: string) {
    && |cluster| == |cds|
    && forall k :: 0 <= k < |cds| ==> Describes(cluster[k], cds[k], parent)
  }

  /** Each protein's qualifier is the first value of its own feature's
      qualifier when the feature carries the key. */
  predicate OwnValues(cluster: seq<Protein>, cds: seq<Feature>) {
    && |cluster| == |cds|
    && (forall k :: 0 <= k < |cds| ==> NonEmptyQualifiers(cds[k].qualifiers))
    && (forall k, key :: 0 <= k < |cds| && key in QualifierKeys && key in cds[k].qualifiers ==>
          Qualifier(cluster[k], key) == cds[k].qualifiers[key][0])
  }

  /** A protein whose feature lacks a key keeps the previous protein's value. */
  predicate CarriedValues(cluster: seq<Protein>, cds: seq<Feature>) {
    && |cluster| == |cds|
    && (forall k, key :: 0 < k < |cds| && key in QualifierKeys && key !in cds[k].qualifiers ==>
          Qualifier(cluster[k], key) == Qualifier(cluster[k - 1], key))
  }

  /** First value wins: own value when present, carried value otherwise. */
  predicate FirstValuesWin(cluster: seq<Protein>, cds: seq<Feature>) {
    OwnValues(cluster, cds) && CarriedValues(cluster, cds)
  }

  /** The locals hold the last protein's qualifiers, and are all unassigned
      before the first CDS. */
  predicate LocalsHoldLast(locals: Locals, cluster: seq<Protein>) {
    && (cluster == [] ==> locals == NoLocals)
    && (cluster != [] ==> forall key :: key in QualifierKeys ==>
          Local(locals, key) == Some(Qualifier(cluster[|cluster| - 1], key)))
  }

  /** One CDS iteration that does not raise appends the protein ReadCds builds
      and accumulates its embedding. */
  lemma CdsStep(st: ScanState, f: Feature, parent: string, embed: string -> seq<real>, dim: nat)
    requires FixedWidth(embed, dim) && VectorShape(st, dim)
    requires IsCds(f)
    ensures Step(st, f, parent, embed, dim).Ok? <==> ReadCds(st.locals, f, parent).Ok?
    ensures Step(st, f, parent, embed, dim).Ok? ==>
      var lp := ReadCds(st.locals, f, parent).value;
      Step(st, f, parent, embed, dim).value ==
        ScanState(lp.0, st.cluster + [lp.1], Accumulate(st.vector, embed(lp.1.translation)))
  {
  }

  /** The loop over a record is the loop over all its features but the last,
      followed by one step. */
  lemma ScanSnoc(fs: seq<Feature>, parent: string, embed: string -> seq<real>, dim: nat)
    requires FixedWidth(embed, dim)
    requires fs != []
    ensures var init := ScanFeatures(fs[..|fs| - 1], parent, embed, dim);
      ScanFeatures(fs, parent, embed, dim) ==
        if init.Err? then init else Step(init.value, fs[|fs| - 1], parent, embed, dim)
  {
  }

  /** The CDS features of a record with one more feature at the end. */
  lemma CdsSnoc(fs: seq<Feature>)
    requires fs != []
    ensures var init, f := fs[..|fs| - 1], fs[|fs| - 1];
      Cds(fs) == if IsCds(f) then Cds(init) + [f] else Cds(init)
  {
  }

  /** What ReadCds leaves in the local and the protein field of one key. */
  lemma ReadCdsKey(l: Locals, f: Feature, parent: string, key: string)
    requires ReadCds(l, f, parent).Ok? && key in QualifierKeys
    ensures var lp := ReadCds(l, f, parent).value;
      && Local(lp.0, key) == Some(Qualifier(lp.1, key))
      && (key in f.qualifiers ==> |f.qualifiers[key]| > 0 && Qualifier(lp.1, key) == f.qualifiers[key][0])
      && (key !in f.qualifiers ==> Local(l, key) == Some(Qualifier(lp.1, key)))
  {
  }

  lemma LocalsStep(locals: Locals, cluster: seq<Protein>, f: Feature, parent: string)
    requires ReadCds(locals, f, parent).Ok?
    ensures var lp := ReadCds(locals, f, parent).value;
      LocalsHoldLast(lp.0, cluster + [lp.1])
  {
    var lp := ReadCds(locals, f, parent).value;
    forall key | key in QualifierKeys
      ensures Local(lp.0, key) == Some(Qualifier(lp.1, key))
    {
      ReadCdsKey(locals, f, parent, key);
    }
  }

  lemma OwnValuesStep(locals: Locals, cluster: seq<Protein>, cds: seq<Feature>, f: Feature, parent: string)
    requires OwnValues(cluster, cds)
    requires ReadCds(locals, f, parent).Ok?
    ensures OwnValues(cluster + [ReadCds(locals, f, parent).value.1], cds + [f])
  {
    var lp := ReadCds(locals, f, parent).value;
    var c, d := cluster + [lp.1], cds + [f];
    var n := |cluster|;
    assert c[n] == lp.1 && d[n] == f;
    assert forall k :: 0 <= k < n ==> c[k] == cluster[k] && d[k] == cds[k];
    assert forall k :: 0 <= k < |d| ==> NonEmptyQualifiers(d[k].qualifiers);
    forall k, key | 0 <= k < |d| && key in QualifierKeys && key in d[k].qualifiers
      ensures Qualifier(c[k], key) == d[k].qualifiers[key][0]
    {
      if k == n {
        ReadCdsKey(locals, f, parent, key);
      }
    }
  }

  lemma CarriedValuesStep(locals: Locals, cluster: seq<Protein>, cds: seq<Feature>, f: Feature, parent: string)
    requires CarriedValues(cluster, cds) && LocalsHoldLast(locals, cluster)
    requires ReadCds(locals, f, parent).Ok?
    ensures CarriedValues(cluster + [ReadCds(locals, f, parent).value.1], cds + [f])
  {
    var lp := ReadCds(locals, f, parent).value;
    var c, d := cluster + [lp.1], cds + [f];
    var n := |cluster|;
    assert c[n] == lp.1 && d[n] == f;
    assert forall k :: 0 <= k < n ==> c[k] == cluster[k] && d[k] == cds[k];
    forall k, key | 0 < k < |d| && key in QualifierKeys && key !in d[k].qualifiers
      ensures Qualifier(c[k], key) == Qualifier(c[k - 1], key)
    {
      if k == n {
        ReadCdsKey(locals, f, parent, key);
      }
    }
  }

  /** A record with one more CDS at the end is Readable when the record before
      it is and the new CDS passes on its own. */
  lemma ReadableSnoc(fs: seq<Feature>)
    requires fs != [] && IsCds(fs[|fs| - 1])
    ensures var init, f := fs[..|fs| - 1], fs[|fs| - 1];
      Readable(fs) <==>
        && Readable(init)
        && NonEmptyQualifiers(f.qualifiers) && f.strand.Some?
        && (Cds(init) == [] ==> HasAllKeys(f.qualifiers))
  {
    var init, f := fs[..|fs| - 1], fs[|fs| - 1];
    CdsSnoc(fs);
    var ci, cds := Cds(init), Cds(fs);
    assert cds == ci + [f];
    assert cds[|ci|] == f;
    assert forall k :: 0 <= k < |ci| ==> cds[k] == ci[k];
    assert |cds| > 0 && cds[0] == if ci == [] then f else ci[0];
  }

  /** The cluster holds one protein per CDS feature, in file order, each with
      its feature's location, strand and DNA slice; each qualifier is the first
      value of the feature's own qualifier when present and otherwise the value
      the previous CDS carried; the locals afterwards hold the last protein's
      qualifiers, and are all unassigned when there was no CDS. */
  lemma {:induction false} ClusterFollowsCds(fs: seq<Feature>, parent: string, embed: string -> seq<real>, dim: nat)
    requires FixedWidth(embed, dim)
    requires ScanFeatures(fs, parent, embed, dim).Ok?
    ensures var st := ScanFeatures(fs, parent, embed, dim).value;
      && Tracks(st.cluster, Cds(fs), parent)
      && FirstValuesWin(st.cluster, Cds(fs))
      && LocalsHoldLast(st.locals, st.cluster)
    decreases |fs|
  {
    if fs != [] {
      var init, f := fs[..|fs| - 1], fs[|fs| - 1];
      ScanSnoc(fs, parent, embed, dim);
      CdsSnoc(fs);
      ClusterFollowsCds(init, parent, embed, dim);
      if IsCds(f) {
        var st0 := ScanFeatures(init, parent, embed, dim).value;
        CdsStep(st0, f, parent, embed, dim);
        OwnValuesStep(st0.locals, st0.cluster, Cds(init), f, parent);
        CarriedValuesStep(st0.locals, st0.cluster, Cds(init), f, parent);
        LocalsStep(st0.locals, st0.cluster, f, parent);
        var lp := ReadCds(st0.locals, f, parent).value;
        var c, d := st0.cluster + [lp.1], Cds(init) + [f];
        assert forall k :: 0 <= k < |st0.cluster| ==> c[k] == st0.cluster[k] && d[k] == Cds(init)[k];
      }
    }
  }

  /** After a loop that did not raise, a CDS passes when its qualifiers have
      values, it has a strand, and it is not the first CDS or carries all keys. */
  lemma CoversAfterLoop(locals: Locals, cluster: seq<Protein>, q: Qualifiers)
    requires LocalsHoldLast(locals, cluster)
    ensures Covers(locals, q) <==> (cluster == [] ==> HasAllKeys(q))
  {
    if cluster != [] {
      assert Local(locals, "translation").Some? && Local(locals, "locus_tag").Some?;
      assert Local(locals, "protein_id").Some? && Local(locals, "product").Some?;
      assert Local(locals, "description").Some? && Local(locals, "gene").Some?;
    }
  }

  /** The loop gets through a record exactly when the record is Readable: an
      empty qualifier list, a missing strand or a qualifier missing from the
      first CDS makes it raise. */
  lemma {:induction false} ScanSucceedsIff(fs: seq<Feature>, parent: string, embed: string -> seq<real>, dim: nat)
    requires FixedWidth(embed, dim)
    ensures ScanFeatures(fs, parent, embed, dim).Ok? <==> Readable(fs)
    decreases |fs|
  {
    if fs != [] {
      var init, f := fs[..|fs| - 1], fs[|fs| - 1];
      ScanSnoc(fs, parent, embed, dim);
      CdsSnoc(fs);
      ScanSucceedsIff(init, parent, embed, dim);
      var ci := Cds(init);
      if IsCds(f) {
        ReadableSnoc(fs);
        if ScanFeatures(init, parent, embed, dim).Ok? {
          var st0 := ScanFeatures(init, parent, embed, dim).value;
          ClusterFollowsCds(init, parent, embed, dim);
          CdsStep(st0, f, parent, embed, dim);
          CoversAfterLoop(st0.locals, st0.cluster, f.qualifiers);
        }
      }
    }
  }

  /** The cluster vector is the elementwise sum (not the mean) of the
      embeddings of every protein's translation; it stays empty when the record
      has no CDS and has the embedding length otherwise. */
  lemma {:induction false} VectorIsSum(fs: seq<Feature>, parent: string, embed: string -> seq<real>, dim: nat)
    requires FixedWidth(embed, dim)
    requires ScanFeatures(fs, parent, embed, dim).Ok?
    ensures var st := ScanFeatures(fs, parent, embed, dim).value;
      && |st.vector| == (if Cds(fs) == [] then 0 else dim)
      && forall j :: 0 <= j < |st.vector| ==> st.vector[j] == ColumnSum(Embeddings(st.cluster, embed), j)
    decreases |fs|
  {
    ClusterFollowsCds(fs, parent, embed, dim);
    if fs != [] {
      var init, f := fs[..|fs| - 1], fs[|fs| - 1];
      var st0 := ScanFeatures(init, parent, embed, dim).value;
      VectorIsSum(init, parent, embed, dim);
      if IsCds(f) {
        var st := ScanFeatures(fs, parent, embed, dim).value;
        var lp := ReadCds(st0.locals, f, parent).value;
        var v := embed(lp.1.translation);
        assert st.cluster == st0.cluster + [lp.1];
        assert st.vector == Accumulate(st0.vector, v);
        var es := Embeddings(st.cluster, embed);
        assert es[..|es| - 1] == Embeddings(st0.cluster, embed);
        forall j | 0 <= j < |st.vector|
          ensures st.vector[j] == ColumnSum(es, j)
        {
          if st0.cluster == [] {
            assert Embeddings(st0.cluster, embed) == [];
          }
        }
      } else {
        assert Cds(fs) == Cds(init);
      }
    }
  }

  /** A record without CDS features yields an empty cluster and an empty vector. */
  lemma {:induction false} NoCdsNoVector(fs: seq<Feature>, parent: string, embed: string -> seq<real>, dim: nat)
    requires FixedWidth(embed, dim)
    requires Cds(fs) == []
    ensures ScanFeatures(fs, parent, embed, dim) == Ok(Initial)
  {
    NonCdsIgnored(fs, parent, embed, dim);
  }

  /** With exactly one CDS the vector is that protein's embedding itself. */
  lemma {:induction false} OneCdsVector(fs: seq<Feature>, parent: string, embed: string -> seq<real>, dim: nat)
    requires FixedWidth(embed, dim)
    requires |Cds(fs)| == 1
    requires ScanFeatures(fs, parent, embed, dim).Ok?
    ensures var st := ScanFeatures(fs, parent, embed, dim).value;
      |st.cluster| == 1 && st.vector == embed(st.cluster[0].translation)
  {
    NonCdsIgnored(fs, parent, embed, dim);
    ClusterFollowsCds(fs, parent, embed, dim);
    var c := Cds(fs);
    assert c[..0] == [];
  }

  /** The locals start unassigned, so a first CDS that lacks a qualifier key
      raises when the protein is built, at the first local it leaves unassigned
      in argument order, even when its values and its strand are in order. */
  lemma {:induction false} FirstCdsUnbound(fs: seq<Feature>, parent: string, embed: string -> seq<real>, dim: nat)
    requires FixedWidth(embed, dim)
    requires Cds(fs) != []
    requires var c := Cds(fs)[0];
      NonEmptyQualifiers(c.qualifiers) && c.strand.Some? && !HasAllKeys(c.qualifiers)
    ensures var r, c := ScanFeatures(fs, parent, embed, dim), Cds(fs)[0];
      && r.Err? && r.error.UnboundLocal?
      && FirstUnbound(ReadQualifiers(NoLocals, c.qualifiers).value) == Some(r.error.name)
  {
    var cs := Cds(fs);
    var c := cs[0];
    CdsMembers(fs);
    assert c in cs;
    NonCdsIgnored(fs, parent, embed, dim);
    var head := cs[..1];
    assert head[..0] == [] && head[0] == c;
    ScanSnoc(head, parent, embed, dim);
    CdsStep(Initial, c, parent, embed, dim);
    assert !Covers(NoLocals, c.qualifiers);
    ErrorPersists(cs, 1, parent, embed, dim);
  }

  /** Once the loop has raised, later features do not matter: the record
      raises the same error. */
  lemma {:induction false} ErrorPersists(fs: seq<Feature>, i: nat, parent: string, embed: string -> seq<real>, dim: nat)
    requires FixedWidth(embed, dim)
    requires i <= |fs|
    requires ScanFeatures(fs[..i], parent, embed, dim).Err?
    ensures ScanFeatures(fs, parent, embed, dim) == ScanFeatures(fs[..i], parent, embed, dim)
    decreases |fs| - i
  {
    if i < |fs| {
      assert fs[..i + 1][..i] == fs[..i];
      ErrorPersists(fs, i + 1, parent, embed, dim);
    } else {
      assert fs[..i] == fs;
    }
  }

  // ---------------------------------------------------------------------
  // The reader object

  /** The reader's fields: the cluster of proteins and the cluster vector. */
  class ReadGB {
    var cluster: seq<Protein>
    var vector: seq<real>

    /** The field defaults: an empty list and an empty vector. */
    constructor Init()
      ensures cluster == [] && vector == []
    {
      cluster := [];
      vector := [];
    }

    /** The loop over the features, appending to `cluster` and accumulating
        into `vector`. It reports the error it raised, if any. */
    method PostInit(features: seq<Feature>, parent: string, embed: string -> seq<real>, ghost dim: nat)
      returns (outcome: Outcome<LoadError>)
      requires FixedWidth(embed, dim)
      requires cluster == [] && vector == []
      modifies this
      ensures ScanFeatures(features, parent, embed, dim).Ok? <==> outcome.Pass?
      ensures outcome.Fail? ==> ScanFeatures(features, parent, embed, dim) == Err(outcome.error)
      ensures outcome.Pass? ==>
        var st := ScanFeatures(features, parent, embed, dim).value;
        cluster == st.cluster && vector == st.vector
    {
      var locals := NoLocals;
      var i := 0;
      assert features[..0] == [];
      while i < |features|
        invariant 0 <= i <= |features|
        invariant ScanFeatures(features[..i], parent, embed, dim) == Ok(ScanState(locals, cluster, vector))
      {
        var record := features[i];
        assert features[..i + 1][..i] == features[..i];
        if IsCds(record) {
          var read := ReadCds(locals, record, parent);
          if read.Err? {
            ErrorPersists(features, i + 1, parent, embed, dim);
            return Fail(read.error);
          }
          var p;
          locals, p := read.value.0, read.value.1;
          cluster := cluster + [p];
          var v := embed(p.translation);
          if |vector| == 0 {
            vector := v;
          } else {
            vector := Add(v, vector);
          }
        }
        i := i + 1;
      }
      assert features[..i] == features;
      outcome := Pass;
    }

    /** Constructing a reader from a record: the loop runs at once, and an error
        it raises escapes the construction. */
    static method Read(features: seq<Feature>, parent: string, embed: string -> seq<real>, ghost dim: nat)
      returns (r: Result<ReadGB, LoadError>)
      requires FixedWidth(embed, dim)
      ensures ScanFeatures(features, parent, embed, dim).Ok? <==> r.Ok?
      ensures r.Err? ==> ScanFeatures(features, parent, embed, dim) == Err(r.error)
      ensures r.Ok? ==>
        var st := ScanFeatures(features, parent, embed, dim).value;
        fresh(r.value) && r.value.cluster == st.cluster && r.value.vector == st.vector
    {
      var reader := new ReadGB.Init();
      var outcome := reader.PostInit(features, parent, embed, dim);
      if outcome.Fail? {
        return Err(outcome.error);
      }
      return Ok(reader);
    }

    /** The cluster and the vector, unchanged. */
    method GetData() returns (c: seq<Protein>, v: seq<real>)
      ensures c == cluster && v == vector
    {
      return cluster, vector;
    }
  }
}
