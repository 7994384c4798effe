/**
 * The configuration builder of `cli/config.py`: the reference-annotation
 * paths derived from a genome build, the mandatory run parameters, their
 * merge with the bundled optional defaults, and the resolution of the two
 * sample groups from inline lists or sample files.
 */
module Config {

  import opened Wrappers
  import opened Strings
  import opened Merge

  /** A value of the configuration document, as the YAML writer receives it. */
  datatype Value =
    | Str(s: string)
    | StrList(items: seq<string>)
    | Int(n: int)
      /** Stands for any other YAML node of the defaults document (a float, a boolean, a nested mapping). */
    | Opaque(tag: string)

  /** A configuration document: parameter name to value. */
  type Document = map<string, Value>

  /** Why building the configuration was aborted. */
  datatype Error =
    | FileNotFound(path: string)
    | MalformedDocument(path: string)

  // The four annotation path templates, each split at its single `{}` slot.
  const CgiLocationFile := Template("annotation/cgi-locations-", ".csv.gz")
  const GeneAnnotationFile := Template("annotation/gene-locations-", ".csv.gz")
  const RepeatMaskerFile := Template("annotation/repeat-masker-", ".csv.gz")
  const TssFile := Template("annotation/transcription-start-sites-", ".csv.gz")

  /** The templates read, slot included, exactly as the constants of the program. */
  lemma TemplatesAsWritten()
    ensures CgiLocationFile.Text() == "annotation/cgi-locations-{}.csv.gz"
    ensures GeneAnnotationFile.Text() == "annotation/gene-locations-{}.csv.gz"
    ensures RepeatMaskerFile.Text() == "annotation/repeat-masker-{}.csv.gz"
    ensures TssFile.Text() == "annotation/transcription-start-sites-{}.csv.gz"
  {
  }

  const AnnotationKeys: set<string> :=
    {"cgi_annotation_file", "gene_annotation_file", "repeat_masker_annotation_file", "transcript_start_site_file"}

  const MandatoryKeys: set<string> :=
    {"rawdir", "output_dir", "group1", "group2", "samples", "ref", "computing_threads", "io_threads"}

  /** No template has a brace besides its slot, so each formats with exactly one replacement field. */
  lemma TemplatesSingleSlot()
    ensures CgiLocationFile.SingleSlot() && GeneAnnotationFile.SingleSlot()
    ensures RepeatMaskerFile.SingleSlot() && TssFile.SingleSlot()
  {
    CgiSingleSlot();
    GeneSingleSlot();
    RepeatMaskerSingleSlot();
    TssSingleSlot();
  }

  lemma CgiSingleSlot() ensures CgiLocationFile.SingleSlot() { BraceFree("annotation/cgi-locations-"); SuffixBraceFree(); }
  lemma GeneSingleSlot() ensures GeneAnnotationFile.SingleSlot() { BraceFree("annotation/gene-locations-"); SuffixBraceFree(); }
  lemma RepeatMaskerSingleSlot() ensures RepeatMaskerFile.SingleSlot() { BraceFree("annotation/repeat-masker-"); SuffixBraceFree(); }
  lemma TssSingleSlot() ensures TssFile.SingleSlot() { BraceFree("annotation/transcription-start-sites-"); SuffixBraceFree(); }

  lemma SuffixBraceFree() ensures '{' !in ".csv.gz" && '}' !in ".csv.gz" {}

  lemma BraceFree(s: string)
    requires forall i :: 0 <= i < |s| ==> s[i] == '/' || s[i] == '-' || 'a' <= s[i] <= 'z'
    ensures '{' !in s && '}' !in s
  {
  }

  /** No mandatory parameter is also an annotation key. */
  lemma KeySetsDisjoint()
    ensures MandatoryKeys !! AnnotationKeys
  {
  }

  /** The template each annotation key is formatted from. */
  function AnnotationTemplate(key: string): (t: Template)
    requires key in AnnotationKeys
  {
    if key == "cgi_annotation_file" then CgiLocationFile
    else if key == "gene_annotation_file" then GeneAnnotationFile
    else if key == "repeat_masker_annotation_file" then RepeatMaskerFile
    else TssFile
  }

  /**
   * `get_reference_annotation_files`: the four annotation keys, each bound to
   * its template with the genome build substituted; the build can be read back
   * from every path.
   */
  function ReferenceAnnotationFiles(genomeBuild: string): (m: Document)
    ensures m.Keys == AnnotationKeys
    ensures forall k :: k in m ==>
      m[k].Str? && AnnotationTemplate(k).Match(m[k].s) == Some(genomeBuild)
  {
    FormatMatch(CgiLocationFile, genomeBuild, "");
    FormatMatch(GeneAnnotationFile, genomeBuild, "");
    FormatMatch(RepeatMaskerFile, genomeBuild, "");
    FormatMatch(TssFile, genomeBuild, "");
    map[
      "cgi_annotation_file" := Str(CgiLocationFile.Format(genomeBuild)),
      "gene_annotation_file" := Str(GeneAnnotationFile.Format(genomeBuild)),
      "repeat_masker_annotation_file" := Str(RepeatMaskerFile.Format(genomeBuild)),
      "transcript_start_site_file" := Str(TssFile.Format(genomeBuild))
    ]
  }

  /** Each annotation path is its template's prefix, the build verbatim, then the template's suffix. */
  lemma AnnotationPaths(genomeBuild: string)
    ensures ReferenceAnnotationFiles(genomeBuild)["cgi_annotation_file"]
      == Str("annotation/cgi-locations-" + genomeBuild + ".csv.gz")
    ensures ReferenceAnnotationFiles(genomeBuild)["gene_annotation_file"]
      == Str("annotation/gene-locations-" + genomeBuild + ".csv.gz")
    ensures ReferenceAnnotationFiles(genomeBuild)["repeat_masker_annotation_file"]
      == Str("annotation/repeat-masker-" + genomeBuild + ".csv.gz")
    ensures ReferenceAnnotationFiles(genomeBuild)["transcript_start_site_file"]
      == Str("annotation/transcription-start-sites-" + genomeBuild + ".csv.gz")
  {
  }

  /** Different genome builds give different annotation paths. */
  lemma AnnotationPathsInjective(build1: string, build2: string)
    requires build1 != build2
    ensures forall k :: k in AnnotationKeys ==>
      ReferenceAnnotationFiles(build1)[k] != ReferenceAnnotationFiles(build2)[k]
  {
    var m1 := ReferenceAnnotationFiles(build1);
    var m2 := ReferenceAnnotationFiles(build2);
    forall k | k in AnnotationKeys
      ensures m1[k] != m2[k]
    {
      assert AnnotationTemplate(k).Match(m1[k].s) == Some(build1);
      assert AnnotationTemplate(k).Match(m2[k].s) == Some(build2);
    }
  }

  /** The CGI annotation path for build "hg38". */
  lemma Hg38Paths()
    ensures ReferenceAnnotationFiles("hg38")["cgi_annotation_file"]
      == Str("annotation/cgi-locations-hg38.csv.gz")
  {
    CgiAnnotationFile("hg38");
    Hg38CgiFormat();
  }

  lemma CgiAnnotationFile(genomeBuild: string)
    ensures ReferenceAnnotationFiles(genomeBuild)["cgi_annotation_file"] == Str(CgiLocationFile.Format(genomeBuild))
  {
  }

  lemma Hg38CgiFormat()
    ensures CgiLocationFile.Format("hg38") == "annotation/cgi-locations-hg38.csv.gz"
  {
  }

  /**
   * The mandatory parameters of a run: the directories and reference as given,
   * both groups, their concatenation as `samples`, and the core count as both
   * thread counts.
   */
  function MandatoryParameters(
    fastqDir: string, fastaRef: string, group1: seq<string>, group2: seq<string>,
    coresPerJob: int, outputDir: string): (m: Document)
    ensures m.Keys == MandatoryKeys
    ensures m["rawdir"] == Str(fastqDir) && m["output_dir"] == Str(outputDir) && m["ref"] == Str(fastaRef)
    ensures m["group1"] == StrList(group1) && m["group2"] == StrList(group2)
    ensures m["samples"] == StrList(group1 + group2)
    ensures |m["samples"].items| == |group1| + |group2|
    ensures m["samples"].items[..|group1|] == group1
    ensures m["samples"].items[|group1|..] == group2
    ensures m["computing_threads"] == m["io_threads"] == Int(coresPerJob)
  {
    var samples := group1 + group2;
    assert samples[..|group1|] == group1;
    assert samples[|group1|..] == group2;
    map[
      "rawdir" := Str(fastqDir),
      "output_dir" := Str(outputDir),
      "group1" := StrList(group1),
      "group2" := StrList(group2),
      "samples" := StrList(samples),
      "ref" := Str(fastaRef),
      "computing_threads" := Int(coresPerJob),
      "io_threads" := Int(coresPerJob)
    ]
  }

  /**
   * `get_default_config`, with `optionals` the mapping read from the bundled
   * defaults document: mandatory parameters, then the defaults, then the
   * annotation paths, each later source overriding the earlier ones.
   */
  function DefaultConfig(
    fastqDir: string, fastaRef: string, group1: seq<string>, group2: seq<string>,
    genomeBuild: string, coresPerJob: int, outputDir: string, optionals: Document): (config: Document)
    ensures config.Keys == MandatoryKeys + optionals.Keys + AnnotationKeys
    ensures forall k :: k in AnnotationKeys ==>
      config[k] == ReferenceAnnotationFiles(genomeBuild)[k]
    ensures forall k :: k in optionals && k !in AnnotationKeys ==>
      config[k] == optionals[k]
    ensures forall k :: k in MandatoryKeys && k !in optionals && k !in AnnotationKeys ==>
      config[k] == MandatoryParameters(fastqDir, fastaRef, group1, group2, coresPerJob, outputDir)[k]
  {
    var mandatory := MandatoryParameters(fastqDir, fastaRef, group1, group2, coresPerJob, outputDir);
    var annotations := ReferenceAnnotationFiles(genomeBuild);
    SpreadOfThree(mandatory, optionals, annotations);
    Spread([mandatory, optionals, annotations])
  }

  /**
   * A mandatory key the defaults do not define carries its mandatory value:
   * the groups as given, `samples` as the two groups in order, and the core
   * count as both thread counts.
   */
  lemma MandatoryValuesWhenUnshadowed(
    fastqDir: string, fastaRef: string, group1: seq<string>, group2: seq<string>,
    genomeBuild: string, coresPerJob: int, outputDir: string, optionals: Document)
    ensures var config := DefaultConfig(fastqDir, fastaRef, group1, group2, genomeBuild, coresPerJob, outputDir, optionals);
      && "group1" in config && "group2" in config && "samples" in config
      && ("group1" !in optionals ==> config["group1"] == StrList(group1))
      && ("group2" !in optionals ==> config["group2"] == StrList(group2))
      && ("samples" !in optionals ==> config["samples"] == StrList(group1 + group2))
      && ("computing_threads" !in optionals ==> config["computing_threads"] == Int(coresPerJob))
      && ("io_threads" !in optionals ==> config["io_threads"] == Int(coresPerJob))
  {
    var config := DefaultConfig(fastqDir, fastaRef, group1, group2, genomeBuild, coresPerJob, outputDir, optionals);
    var mandatory := MandatoryParameters(fastqDir, fastaRef, group1, group2, coresPerJob, outputDir);
    KeySetsDisjoint();
    assert "group1" in MandatoryKeys && "group2" in MandatoryKeys && "samples" in MandatoryKeys;
    assert "computing_threads" in MandatoryKeys;
    assert "io_threads" in MandatoryKeys;
  }

  /** `read_samples_from_file`: the lines of the file at `path`, or the error for a path that does not exist. */
  function ReadSamplesFromFile(files: map<string, string>, path: string): (r: Result<seq<string>, Error>)
    ensures r.Failure? <==> path !in files
    ensures r.Failure? ==> r.error == FileNotFound(path)
    ensures r.Success? ==> r.value == SplitLines(files[path])
    ensures r.Success? ==> forall k :: 0 <= k < |r.value| ==> '\n' !in r.value[k]
  {
    if path in files then Success(SplitLines(files[path])) else Failure(FileNotFound(path))
  }

  /**
   * The sample groups of `create_config`: read from the two files (the first
   * file first) or split from the two inline comma-separated lists.
   */
  function ResolveGroups(useSampleFiles: bool, group1: string, group2: string, files: map<string, string>)
    : (r: Result<(seq<string>, seq<string>), Error>)
    ensures !useSampleFiles ==> r.Success?
    ensures !useSampleFiles ==> |r.value.0| > 0 && |r.value.1| > 0
    ensures !useSampleFiles ==> Join(r.value.0, ',') == group1 && Join(r.value.1, ',') == group2
    ensures !useSampleFiles ==> forall k :: 0 <= k < |r.value.0| ==> ',' !in r.value.0[k]
    ensures !useSampleFiles ==> forall k :: 0 <= k < |r.value.1| ==> ',' !in r.value.1[k]
    ensures useSampleFiles ==> (r.Success? <==> group1 in files && group2 in files)
    ensures useSampleFiles && r.Success? ==>
      r.value == (SplitLines(files[group1]), SplitLines(files[group2]))
    ensures useSampleFiles && group1 !in files ==> r == Failure(FileNotFound(group1))
    ensures useSampleFiles && group1 in files && group2 !in files ==> r == Failure(FileNotFound(group2))
  {
    if useSampleFiles then
      var samples1 :- ReadSamplesFromFile(files, group1);
      var samples2 :- ReadSamplesFromFile(files, group2);
      Success((samples1, samples2))
    else
      JoinSplit(group1, ',');
      JoinSplit(group2, ',');
      SplitPiecesFree(group1, ',');
      SplitPiecesFree(group2, ',');
      Success((Split(group1, ','), Split(group2, ',')))
  }

  /**
   * `create_config` up to the final write: the document that is dumped, or
   * the first error met. The sample files are read before the defaults, and
   * `optionals` is the outcome of reading the defaults document.
   */
  function CreateConfig(
    useSampleFiles: bool, genomeBuild: string, coresPerJob: int, fastqDir: string,
    referenceFasta: string, group1: string, group2: string, outputDir: string,
    files: map<string, string>, optionals: Result<Document, Error>): (r: Result<Document, Error>)
    ensures var groups := ResolveGroups(useSampleFiles, group1, group2, files);
      && (r.Success? <==> groups.Success? && optionals.Success?)
      && (groups.Failure? ==> r == Failure(groups.error))
      && (groups.Success? && optionals.Failure? ==> r == Failure(optionals.error))
      && (r.Success? ==> r.value == DefaultConfig(
            fastqDir, referenceFasta, groups.value.0, groups.value.1,
            genomeBuild, coresPerJob, outputDir, optionals.value))
  {
    var groups :- ResolveGroups(useSampleFiles, group1, group2, files);
    var defaults :- optionals;
    Success(DefaultConfig(fastqDir, referenceFasta, groups.0, groups.1, genomeBuild, coresPerJob, outputDir, defaults))
  }

  /**
   * Sample files holding one sample per line give the same configuration as
   * the same samples written inline, comma-separated.
   */
  lemma FileAndInlineModesAgree(
    genomeBuild: string, coresPerJob: int, fastqDir: string, referenceFasta: string,
    samples1: seq<string>, samples2: seq<string>, path1: string, path2: string, outputDir: string,
    files: map<string, string>, optionals: Result<Document, Error>)
    requires |samples1| > 0 && |samples2| > 0
    requires forall k :: 0 <= k < |samples1| ==> ',' !in samples1[k] && '\n' !in samples1[k]
    requires forall k :: 0 <= k < |samples2| ==> ',' !in samples2[k] && '\n' !in samples2[k]
    requires path1 in files && files[path1] == UnlinesTerminated(samples1)
    requires path2 in files && files[path2] == UnlinesTerminated(samples2)
    ensures CreateConfig(true, genomeBuild, coresPerJob, fastqDir, referenceFasta, path1, path2, outputDir, files, optionals)
         == CreateConfig(false, genomeBuild, coresPerJob, fastqDir, referenceFasta,
                         Join(samples1, ','), Join(samples2, ','), outputDir, files, optionals)
  {
    SplitLinesUnlines(samples1);
    SplitLinesUnlines(samples2);
    SplitJoin(samples1, ',');
    SplitJoin(samples2, ',');
  }

  /**
   * The two modes part ways on empty input: an empty sample file gives an
   * empty group, while an empty inline list gives one empty sample name.
   */
  lemma EmptyInputsDiffer(path: string, files: map<string, string>)
    requires path in files && files[path] == ""
    ensures ResolveGroups(true, path, path, files) == Success(([], []))
    ensures ResolveGroups(false, "", "", files) == Success(([""], [""]))
  {
    assert Split("", '\n') == [""];
  }

  /**
   * Inline groups `s1,s2` and `s3`, for any comma-free sample names, resolve
   * to `[s1, s2]` and `[s3]`.
   */
  lemma InlineScenario(s1: string, s2: string, s3: string, files: map<string, string>)
    requires ',' !in s1 && ',' !in s2 && ',' !in s3
    ensures ResolveGroups(false, s1 + "," + s2, s3, files) == Success(([s1, s2], [s3]))
  {
    assert s1 + "," + s2 == s1 + [','] + s2;
    SplitAtFirst(s1, ',', s2);
    IndexOfAbsent(s2, ',');
    IndexOfAbsent(s3, ',');
    assert Split(s2, ',') == [s2];
    assert Split(s3, ',') == [s3];
    assert Split(s1 + "," + s2, ',') == [s1, s2];
  }
}
