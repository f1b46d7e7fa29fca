/** The S3-against-links listing comparison tool: the optional ls runs, the check that both
    saved listings are named, and the comparison that prints every missing name. */
module LinksDiff {
  import opened Wrappers
  import opened Text
  import opened QrListing

  /** The four options of the tool. */
  datatype Args = Args(s3Ls: Option<string>, linksLs: Option<string>, runS3Ls: Option<string>, runLinksLs: Option<string>)

  /** What one run of the tool does, in order. */
  datatype Step =
    | RunS3Ls(outputFile: string)
    | RunLinksLs(outputFile: string)
    | Diff(s3LsOut: string, linksLsOut: string)

  /** The ls commands asked for; both may run. */
  function LsSteps(args: Args): seq<Step> {
    (if Truthy(args.runS3Ls) then [RunS3Ls(args.runS3Ls.value)] else [])
    + (if Truthy(args.runLinksLs) then [RunLinksLs(args.runLinksLs.value)] else [])
  }

  /** `main`: the ls runs, then the comparison when both listings are named, else the error. */
  function Main(args: Args): (seq<Step>, Option<Error>) {
    var ls := LsSteps(args);
    if Truthy(args.s3Ls) && Truthy(args.linksLs) then (ls + [Diff(args.s3Ls.value, args.linksLs.value)], None)
    else if Truthy(args.s3Ls) || Truthy(args.linksLs) then (ls, Some(RuntimeError("please specify both --s3-ls and --links-ls")))
    else (ls, Some(RuntimeError("no options, please check --help")))
  }

  /** The ls runs always happen first; the comparison follows exactly when both listings are
      named, and otherwise the run ends in a RuntimeError even after an ls ran. */
  lemma MainOutcome(args: Args)
    ensures var (steps, error) := Main(args);
            && |LsSteps(args)| <= |steps| && steps[..|LsSteps(args)|] == LsSteps(args)
            && (error.None? <==> Truthy(args.s3Ls) && Truthy(args.linksLs))
            && (error.None? ==> steps == LsSteps(args) + [Diff(args.s3Ls.value, args.linksLs.value)])
            && (error.Some? ==> steps == LsSteps(args) && error.value.RuntimeError?)
            && ((Truthy(args.s3Ls) != Truthy(args.linksLs))
                 ==> error == Some(RuntimeError("please specify both --s3-ls and --links-ls")))
            && ((!Truthy(args.s3Ls) && !Truthy(args.linksLs))
                 ==> error == Some(RuntimeError("no options, please check --help")))
  {
    var ls := LsSteps(args);
    if Truthy(args.s3Ls) && Truthy(args.linksLs) {
      assert (ls + [Diff(args.s3Ls.value, args.linksLs.value)])[..|ls|] == ls;
    }
  }

  /** Both ls runs happen when asked for, in the order S3 then links. */
  lemma BothLsRun(args: Args)
    requires Truthy(args.runS3Ls) && Truthy(args.runLinksLs)
    ensures Main(args).0[..2] == [RunS3Ls(args.runS3Ls.value), RunLinksLs(args.runLinksLs.value)]
  {
    MainOutcome(args);
  }

  /** Saved listing files by name, each as its lines. */
  type Files = map<string, seq<string>>

  datatype Report = Report(printed: seq<string>, error: Option<Error>)

  function S3CountLine(n: nat): string {
    "=== S3 files    " + Decimal(n)
  }

  function LinksCountLine(n: nat): string {
    "=== Links files " + Decimal(n)
  }

  function MatchLine(total: nat): string {
    "=== Files in S3 match with Links, total " + Decimal(total)
  }

  function MissingLine(missing: nat): string {
    "=== " + Decimal(missing) + " files are missing in S3 as compared to Links"
  }

  /** What is printed after the two counts. */
  function Verdict(linksFiles: seq<string>, s3Files: seq<string>): seq<string> {
    var diff := Missing(linksFiles, set n | n in s3Files);
    if |diff| == 0 then [MatchLine(|linksFiles|)] else [MissingLine(|diff|)] + diff
  }

  /** With nothing missing only the match line, with the links count, is printed; otherwise
      the missing count and then exactly the links names S3 lacks, in links order. */
  lemma VerdictLists(linksFiles: seq<string>, s3Files: seq<string>)
    ensures (forall n :: n in linksFiles ==> n in s3Files) ==> Verdict(linksFiles, s3Files) == [MatchLine(|linksFiles|)]
    ensures (exists n :: n in linksFiles && n !in s3Files) ==>
              var v := Verdict(linksFiles, s3Files);
              && |v| >= 2 && v[0] == MissingLine(|v| - 1)
              && (forall n :: n in v[1..] <==> n in linksFiles && n !in s3Files)
  {
    var s3Set := set n | n in s3Files;
    var diff := Missing(linksFiles, s3Set);
    MissingIff(linksFiles, s3Set);
    MissingEmptyIff(linksFiles, s3Set);
    if exists n :: n in linksFiles && n !in s3Files {
      var n :| n in linksFiles && n !in s3Files;
      assert n in diff;
      var v := [MissingLine(|diff|)] + diff;
      assert Verdict(linksFiles, s3Files) == v;
      assert v[1..] == diff;
    }
  }

  /** The comparison of the two listings named by the options. */
  function LinksReport(files: Files, s3LsOut: string, linksLsOut: string): Report {
    if s3LsOut !in files then Report([], Some(FileNotFound(s3LsOut)))
    else
      var s3Files := Names(files[s3LsOut]);
      if linksLsOut !in files then Report([S3CountLine(|s3Files|)], Some(FileNotFound(linksLsOut)))
      else
        var linksFiles := Names(files[linksLsOut]);
        Report([S3CountLine(|s3Files|), LinksCountLine(|linksFiles|)] + Verdict(linksFiles, s3Files), None)
  }

  /** `do_diff`: the file names it is passed are replaced by the options' before use. */
  method DoDiff(args: Args, files: Files, s3LsOut: string, linksLsOut: string) returns (printed: seq<string>, error: Option<Error>)
    requires args.s3Ls.Some? && args.linksLs.Some?
    ensures Report(printed, error) == LinksReport(files, args.s3Ls.value, args.linksLs.value)
  {
    var s3Path := args.s3Ls.value;
    var linksPath := args.linksLs.value;
    printed := [];
    if s3Path !in files {
      return printed, Some(FileNotFound(s3Path));
    }
    var s3FileList, s3Dict := CollectNames(files[s3Path]);
    printed := printed + [S3CountLine(|s3FileList|)];
    if linksPath !in files {
      return printed, Some(FileNotFound(linksPath));
    }
    var linksFileList, _ := CollectNames(files[linksPath]);
    printed := printed + [LinksCountLine(|linksFileList|)];
    printed := CompareNames(printed, linksFileList, s3FileList, s3Dict);
    error := None;
  }

  /** Collects the links names the dictionary lacks and prints the verdict on them. */
  method CompareNames(printed0: seq<string>, linksFileList: seq<string>, ghost s3FileList: seq<string>, s3Dict: map<string, int>)
    returns (printed: seq<string>)
    requires s3Dict.Keys == set n | n in s3FileList
    ensures printed == printed0 + Verdict(linksFileList, s3FileList)
  {
    var diffFileList := MissingNames(linksFileList, s3Dict);
    if |diffFileList| == 0 {
      return printed0 + [MatchLine(|linksFileList|)];
    }
    printed := printed0 + [MissingLine(|diffFileList|)];
    printed := PrintEach(printed, diffFileList);
  }

  /** Prints one name per line. */
  method PrintEach(printed0: seq<string>, names: seq<string>) returns (printed: seq<string>)
    ensures printed == printed0 + names
  {
    printed := printed0;
    for i := 0 to |names|
      invariant printed == printed0 + names[..i]
    {
      assert names[..i + 1] == names[..i] + [names[i]];
      printed := printed + [names[i]];
    }
    assert names[..|names|] == names;
  }
}
