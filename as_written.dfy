/** Two statements of the reader's loop, as they are written, next to the
    behaviour the rest of the model gives them.

    The loop iterates the parsed record itself and reads `record.seq` from the
    loop variable. A Biopython SeqRecord iterates over the letters of its
    sequence, and a feature has no `seq` attribute: as written, the loop raises
    on any record with a non-empty sequence, and would raise again at the first
    CDS if it did iterate the features. The model iterates the features and
    slices the record's own sequence. */
module AsWritten {
  import opened Results
  import opened ReadGenBank

  /** The loop over `enumerate(records)` as written: its first item is a
      one-letter string, which has no `type` attribute. */
  function ScanRecordAsWritten(parent: string): (r: Result<ScanState, LoadError>)
    ensures r.Ok? <==> parent == []
    ensures r.Ok? ==> r.value == Initial
    ensures r.Err? ==> r.error == NoAttribute("str", "type")
  {
    if parent == [] then Ok(Initial) else Err(NoAttribute("str", "type"))
  }

  /** One CDS iteration as written when the loop variable is a feature: the
      qualifiers and the strand are read, then `record.seq` raises. */
  function StepAsWritten(st: ScanState, f: Feature): (r: Result<ScanState, LoadError>)
    ensures !IsCds(f) ==> r == Ok(st)
    ensures IsCds(f) ==> r.Err?
    ensures IsCds(f) && NonEmptyQualifiers(f.qualifiers) && f.strand.Some? ==>
      r == Err(NoAttribute("SeqFeature", "seq"))
  {
    if !IsCds(f) then Ok(st)
    else
      var locals :- ReadQualifiers(st.locals, f.qualifiers);
      var strand :- IntStrand(f.strand);
      Err(NoAttribute("SeqFeature", "seq"))
  }

  const SampleParent := "ATGAAATAA"

  const SampleQualifiers: Qualifiers := map[
    "translation" := ["MK"], "locus_tag" := ["BGC_0001"], "protein_id" := ["AAA00001.1"],
    "product" := ["polyketide synthase"], "description" := ["type I PKS"], "gene" := ["pksA"]]

  const SampleCds := Feature(CdsKey, SampleQualifiers, Some(1), 0, 9)

  /** A record with one complete CDS: as written the loop raises on the first
      letter of the sequence; iterating the features gives a one-protein
      cluster. */
  lemma RecordIterationLosesFeatures(embed: string -> seq<real>, dim: nat)
    requires FixedWidth(embed, dim)
    ensures ScanRecordAsWritten(SampleParent).Err?
    ensures ScanFeatures([SampleCds], SampleParent, embed, dim).Ok?
    ensures |ScanFeatures([SampleCds], SampleParent, embed, dim).value.cluster| == 1
  {
    var fs := [SampleCds];
    assert fs[..0] == [];
    ScanSnoc(fs, SampleParent, embed, dim);
    CdsStep(Initial, SampleCds, SampleParent, embed, dim);
    assert HasAllKeys(SampleCds.qualifiers);
  }

  /** The same CDS: as written its iteration raises at `record.seq`; sliced
      from the record's sequence its protein holds the whole coding region. */
  lemma FeatureSeqRaises(embed: string -> seq<real>, dim: nat)
    requires FixedWidth(embed, dim)
    ensures StepAsWritten(Initial, SampleCds) == Err(NoAttribute("SeqFeature", "seq"))
    ensures Step(Initial, SampleCds, SampleParent, embed, dim).Ok?
    ensures Step(Initial, SampleCds, SampleParent, embed, dim).value.cluster[0].dna == SampleParent
  {
    CdsStep(Initial, SampleCds, SampleParent, embed, dim);
    assert HasAllKeys(SampleCds.qualifiers);
  }
}
