/** The S3-against-local listing comparison tool: its flag dispatch, the recursive S3 listing
    with its depth filter and numbered lines, the size rendering, and the comparison of two
    saved listings. */
module S3Diff {
  import opened Wrappers
  import opened Text
  import opened QrListing

  const S3Bucket: string := "nasa-irsa-spherex"
  const S3Prefix: string := "qr2/"
  /** "nasa-irsa-spherex/qr2/" */
  const S3Path: string := S3Bucket + "/" + S3Prefix
  const LocalPath: string := "/stage/irsa-spherex-links-ops/qr2"

  // ---------------------------------------------------------------------------------------
  // Dispatch

  /** The option values the dispatch reads; `compare` holds the two file names given to
      `--compare`. */
  datatype Args = Args(
    runS3Ls: Option<string>,
    runLocalLs: Option<string>,
    compare: Option<(string, string)>,
    s3Ls: Option<string>,
    localLs: Option<string>)

  /** What one run of the tool does. */
  datatype Action =
    | ListS3
    | ListLocal(outputFile: string)
    | Diff(s3LsOut: string, localLsOut: string)
    | Fail(error: Error)

  /** The dispatch over all five option values. */
  function Dispatch(args: Args): (a: Action)
    ensures Truthy(args.runS3Ls) ==> a == ListS3
    ensures !Truthy(args.runS3Ls) && Truthy(args.runLocalLs) ==> a == ListLocal(args.runLocalLs.value)
    ensures a.Diff? ==> !Truthy(args.runS3Ls) && !Truthy(args.runLocalLs)
    ensures a.Fail? <==> !Truthy(args.runS3Ls) && !Truthy(args.runLocalLs) && args.compare.None?
                         && !(Truthy(args.s3Ls) && Truthy(args.localLs))
    ensures a.Fail? ==> a.error.RuntimeError?
  {
    if Truthy(args.runS3Ls) then ListS3
    else if Truthy(args.runLocalLs) then ListLocal(args.runLocalLs.value)
    else if args.compare.Some? then Diff(args.compare.value.0, args.compare.value.1)
    else if Truthy(args.s3Ls) && Truthy(args.localLs) then Diff(args.s3Ls.value, args.localLs.value)
    else if Truthy(args.s3Ls) || Truthy(args.localLs) then Fail(RuntimeError("please specify both --s3-ls and --local-ls"))
    else Fail(RuntimeError("no options, please check --help"))
  }

  /** `--compare` wins over the separate file options, which diff only when both are given;
      one of them alone, or none, is reported with its own message. */
  lemma DispatchDiffs(args: Args)
    requires !Truthy(args.runS3Ls) && !Truthy(args.runLocalLs)
    ensures args.compare.Some? ==> Dispatch(args) == Diff(args.compare.value.0, args.compare.value.1)
    ensures (args.compare.None? && Truthy(args.s3Ls) && Truthy(args.localLs))
              ==> Dispatch(args) == Diff(args.s3Ls.value, args.localLs.value)
    ensures (args.compare.None? && (Truthy(args.s3Ls) != Truthy(args.localLs)))
              ==> Dispatch(args) == Fail(RuntimeError("please specify both --s3-ls and --local-ls"))
    ensures (args.compare.None? && !Truthy(args.s3Ls) && !Truthy(args.localLs))
              ==> Dispatch(args) == Fail(RuntimeError("no options, please check --help"))
  {
  }

  /** The options the command line actually defines: `--s3-ls` and `--local-ls` are not
      among them. */
  datatype ParsedArgs = ParsedArgs(runS3Ls: Option<string>, runLocalLs: Option<string>, compare: Option<(string, string)>)

  /** The dispatch as written over the parsed options: reading the undefined `s3_ls` raises
      AttributeError once neither ls option nor `--compare` is given. */
  function DispatchParsed(p: ParsedArgs): Action {
    if Truthy(p.runS3Ls) then ListS3
    else if Truthy(p.runLocalLs) then ListLocal(p.runLocalLs.value)
    else if p.compare.Some? then Diff(p.compare.value.0, p.compare.value.1)
    else Fail(AttributeError("s3_ls"))
  }

  /** Run without options, the tool as written fails with AttributeError instead of its
      "no options" message. */
  lemma NoOptionsIsAttributeError()
    ensures DispatchParsed(ParsedArgs(None, None, None)) == Fail(AttributeError("s3_ls"))
    ensures Dispatch(Args(None, None, None, None, None)) == Fail(RuntimeError("no options, please check --help"))
  {
  }

  /** Where the parsed options reach the dispatch, both agree; they part only where the
      undefined options are read. */
  lemma DispatchParsedAgrees(p: ParsedArgs)
    ensures var full := Dispatch(Args(p.runS3Ls, p.runLocalLs, p.compare, None, None));
            DispatchParsed(p) == full
            || (full == Fail(RuntimeError("no options, please check --help"))
                && DispatchParsed(p) == Fail(AttributeError("s3_ls")))
  {
  }

  // ---------------------------------------------------------------------------------------
  // The S3 listing

  /** `s.split(sep, 1)` when `sep` occurs: the text before the first `sep` and the rest. */
  function SplitFirst(s: string, sep: char): (r: Option<(string, string)>)
    ensures r.Some? <==> sep in s
    ensures r.Some? ==> r.value.0 + [sep] + r.value.1 == s && sep !in r.value.0
    decreases |s|
  {
    if |s| == 0 then None
    else if s[0] == sep then Some(([], s[1..]))
    else match SplitFirst(s[1..], sep)
      case None => None
      case Some(parts) =>
        assert [s[0]] + parts.0 + [sep] + parts.1 == s;
        Some(([s[0]] + parts.0, parts.1))
  }

  /** The bucket and prefix the listing uses. */
  lemma S3PathSplit()
    ensures SplitFirst(S3Path, '/') == Some((S3Bucket, S3Prefix))
  {
    SplitFirstUnique(S3Path, '/', S3Bucket, S3Prefix);
  }

  /** The split is at the first separator: any text without one, a separator and a rest
      split that way. */
  lemma {:induction false} SplitFirstUnique(s: string, sep: char, a: string, b: string)
    requires s == a + [sep] + b && sep !in a
    ensures SplitFirst(s, sep) == Some((a, b))
    decreases |a|
  {
    if |a| == 0 {
      assert s[0] == sep && s[1..] == b;
    } else {
      assert s[0] == a[0] != sep;
      assert s[1..] == a[1..] + [sep] + b;
      SplitFirstUnique(s[1..], sep, a[1..], b);
      assert [s[0]] + a[1..] == a;
    }
  }

  /** One object of a listing page. */
  datatype S3Object = S3Object(key: string, size: nat)

  /** A page of the listing: its objects, or None when the page has no `Contents`. */
  type Page = Option<seq<S3Object>>

  function PageObjects(pages: seq<Page>): seq<S3Object>
    decreases |pages|
  {
    if |pages| == 0 then []
    else
      var last := pages[|pages| - 1];
      PageObjects(pages[..|pages| - 1]) + (if last.Some? then last.value else [])
  }

  /** How many '/'-separated segments the prefix has once its outer '/' are stripped; 0 when
      nothing is left. */
  function PrefixDepth(prefix: string): nat {
    var clean := Strip(prefix, '/');
    if |clean| == 0 then 0 else SplitCount(clean, '/')
  }

  /** The depth of a stripped key below the prefix. */
  function KeyDepth(key: string, prefixDepth: nat): int {
    SplitCount(key, '/') - prefixDepth
  }

  /** A key is skipped only when a positive maximum depth is set and the key lies deeper. */
  predicate Skipped(key: string, prefixDepth: nat, maxDepth: int) {
    maxDepth > 0 && KeyDepth(key, prefixDepth) > maxDepth
  }

  /** What becomes of one object: its key stripped of outer '/', or nothing when it is too
      deep. */
  function Entry(o: S3Object, prefixDepth: nat, maxDepth: int): Option<S3Object> {
    var key := Strip(o.key, '/');
    if Skipped(key, prefixDepth, maxDepth) then None else Some(S3Object(key, o.size))
  }

  /** The objects a per-object choice keeps, in order. */
  function Kept(objs: seq<S3Object>, entry: S3Object -> Option<S3Object>): (r: seq<S3Object>)
    ensures |r| <= |objs|
    decreases |objs|
  {
    if |objs| == 0 then []
    else
      var e := entry(objs[|objs| - 1]);
      Kept(objs[..|objs| - 1], entry) + (if e.Some? then [e.value] else [])
  }

  /** The choice `list_keys_v2` makes for each object. */
  function DepthFilter(prefixDepth: nat, maxDepth: int): S3Object -> Option<S3Object> {
    (o: S3Object) => Entry(o, prefixDepth, maxDepth)
  }

  lemma KeptSnoc(objs: seq<S3Object>, o: S3Object, entry: S3Object -> Option<S3Object>)
    ensures var e := entry(o);
            Kept(objs + [o], entry) == Kept(objs, entry) + (if e.Some? then [e.value] else [])
  {
    assert (objs + [o])[..|objs|] == objs;
  }

  /** A choice that keeps every object keeps them all, in order. */
  lemma {:induction false} KeptAll(objs: seq<S3Object>, entry: S3Object -> Option<S3Object>)
    requires forall i :: 0 <= i < |objs| ==> entry(objs[i]).Some?
    ensures |Kept(objs, entry)| == |objs|
    ensures forall i :: 0 <= i < |objs| ==> Kept(objs, entry)[i] == entry(objs[i]).value
    decreases |objs|
  {
    if |objs| > 0 {
      KeptAll(objs[..|objs| - 1], entry);
    }
  }

  /** Everything listed is some object's entry, and every object's entry is listed. */
  lemma {:induction false} KeptIff(objs: seq<S3Object>, entry: S3Object -> Option<S3Object>)
    ensures forall o :: o in Kept(objs, entry) ==> exists i :: 0 <= i < |objs| && entry(objs[i]) == Some(o)
    ensures forall i :: 0 <= i < |objs| && entry(objs[i]).Some? ==> entry(objs[i]).value in Kept(objs, entry)
    decreases |objs|
  {
    if |objs| > 0 {
      var k := |objs| - 1;
      var prefix := objs[..k];
      KeptIff(prefix, entry);
      forall o | o in Kept(objs, entry)
        ensures exists i :: 0 <= i < |objs| && entry(objs[i]) == Some(o)
      {
        if o in Kept(prefix, entry) {
          var i :| 0 <= i < |prefix| && entry(prefix[i]) == Some(o);
          assert objs[i] == prefix[i];
        } else {
          assert entry(objs[k]) == Some(o);
        }
      }
      forall i | 0 <= i < k && entry(objs[i]).Some?
        ensures entry(objs[i]).value in Kept(objs, entry)
      {
        assert objs[i] == prefix[i];
      }
    }
  }

  /** Without a positive maximum depth no object is skipped. */
  lemma NoMaxDepthSkipsNothing(o: S3Object, prefixDepth: nat, maxDepth: int)
    requires maxDepth <= 0
    ensures DepthFilter(prefixDepth, maxDepth)(o) == Some(S3Object(Strip(o.key, '/'), o.size))
  {
  }

  /** With a positive maximum depth, an object is dropped exactly when its stripped key lies
      more than that many segments below the prefix. */
  lemma DepthFilterIff(o: S3Object, prefixDepth: nat, maxDepth: int)
    requires maxDepth > 0
    ensures DepthFilter(prefixDepth, maxDepth)(o).None?
            <==> SplitCount(Strip(o.key, '/'), '/') > prefixDepth + maxDepth
  {
  }

  /** The listing prefix sits one level deep. */
  lemma S3PrefixDepth()
    ensures PrefixDepth(S3Prefix) == 1
  {
    assert StripLeft("qr2/", '/') == "qr2/";
    assert StripRight("qr2/", '/') == StripRight("qr2", '/') == "qr2";
    assert Occurrences("qr2", '/') == 0 by {
      assert "qr2"[..2] == "qr";
      assert "qr"[..1] == "q";
    }
  }

  /** `size_to_string`: the unit, chosen by strict comparisons, and the amount in it; plain
      byte counts are rendered with thousands separators. */
  datatype SizeText =
    | Gigabytes(amount: real)
    | Megabytes(amount: real)
    | Kilobytes(amount: real)
    | Bytes(text: string)

  const KiB: nat := 1024
  const MiB: nat := 1024 * 1024
  const GiB: nat := 1024 * 1024 * 1024

  function SizeToString(size: nat): (r: SizeText)
    ensures r.Gigabytes? <==> size > GiB
    ensures r.Megabytes? <==> MiB < size <= GiB
    ensures r.Kilobytes? <==> KiB < size <= MiB
    ensures r.Bytes? <==> size <= KiB
  {
    if size > GiB then Gigabytes(size as real / GiB as real)
    else if size > MiB then Megabytes(size as real / MiB as real)
    else if size > KiB then Kilobytes(size as real / KiB as real)
    else Bytes(CommaInt(size) + " bytes")
  }

  /** The amount shown is above one of its unit and, below gigabytes, at most 1024 of it;
      the plain form is the digits of the size, grouped, followed by " bytes". */
  lemma SizeToStringAmount(size: nat)
    ensures var r := SizeToString(size);
            && (!r.Bytes? ==> r.amount > 1.0)
            && (r.Megabytes? || r.Kilobytes? ==> r.amount <= 1024.0)
            && (r.Bytes? ==> && |r.text| >= 6 && r.text[|r.text| - 6..] == " bytes"
                             && RemoveCommas(r.text[..|r.text| - 6]) == Decimal(size))
  {
    var r := SizeToString(size);
    if r.Bytes? {
      var g := GroupThousands(Decimal(size));
      assert r.text == g + " bytes";
      assert r.text[..|r.text| - 6] == g;
      GroupThousandsDigits(Decimal(size));
    } else if r.Megabytes? {
      assert size as real <= 1024.0 * MiB as real;
    } else if r.Kilobytes? {
      assert size as real <= 1024.0 * KiB as real;
    }
  }

  /** Exactly 1024 bytes is still shown in bytes. */
  lemma SizeOf1024()
    ensures SizeToString(1024) == Bytes("1,024 bytes")
  {
    assert Decimal(1024) == "1024" by {
      assert Decimal(102) == "102" by {
        assert Decimal(10) == "10";
      }
    }
    assert GroupThousands("1024") == "1,024" by {
      assert "1024"[..1] == "1";
      assert "1024"[1..] == "024";
    }
  }

  /** One printed listing line: `[{count:06d}] {size_str} {key}`. */
  datatype ListedLine = ListedLine(number: string, size: SizeText, key: string)

  function Line(count: nat, o: S3Object): ListedLine {
    ListedLine(ZeroPad(Decimal(count), 6), SizeToString(o.size), o.key)
  }

  predicate Listed(fileKeys: seq<string>, printed: seq<ListedLine>, kept: seq<S3Object>) {
    && |fileKeys| == |kept| && |printed| == |kept|
    && forall i :: 0 <= i < |kept| ==> fileKeys[i] == kept[i].key && printed[i] == Line(i + 1, kept[i])
  }

  /** One more object: listed after the others when it is kept, else nothing changes. */
  lemma ListStep(fileKeys: seq<string>, printed: seq<ListedLine>, seen: seq<S3Object>, o: S3Object,
                 entry: S3Object -> Option<S3Object>)
    requires Listed(fileKeys, printed, Kept(seen, entry))
    ensures entry(o).None? ==> Listed(fileKeys, printed, Kept(seen + [o], entry))
    ensures entry(o).Some? ==> Listed(fileKeys + [entry(o).value.key], printed + [Line(|printed| + 1, entry(o).value)],
                                      Kept(seen + [o], entry))
  {
    KeptSnoc(seen, o, entry);
  }

  /** `list_keys_v2`: walks the pages in order, skips keys deeper than the maximum, and
      prints every listed key numbered from 1. */
  method ListKeys(pages: seq<Page>, prefix: string, maxDepth: int) returns (fileKeys: seq<string>, printed: seq<ListedLine>)
    ensures Listed(fileKeys, printed, Kept(PageObjects(pages), DepthFilter(PrefixDepth(prefix), maxDepth)))
  {
    fileKeys := [];
    printed := [];
    var cleanPrefix := Strip(prefix, '/');
    var prefixDepth := if |cleanPrefix| > 0 then SplitCount(cleanPrefix, '/') else 0;
    assert prefixDepth == PrefixDepth(prefix);
    var count := 0;
    for pi := 0 to |pages|
      invariant count == |printed|
      invariant Listed(fileKeys, printed, Kept(PageObjects(pages[..pi]), DepthFilter(prefixDepth, maxDepth)))
    {
      assert pages[..pi + 1][..pi] == pages[..pi];
      if pages[pi].Some? {
        fileKeys, printed, count := ListPage(pages[pi].value, prefixDepth, maxDepth, PageObjects(pages[..pi]), fileKeys, printed, count);
      }
      if pages[pi].None? {
        assert PageObjects(pages[..pi + 1]) == PageObjects(pages[..pi]);
      }
    }
    assert pages[..|pages|] == pages;
  }

  /** The objects of one page, listed after those already printed. */
  method ListPage(objs: seq<S3Object>, prefixDepth: nat, maxDepth: int, ghost before: seq<S3Object>,
                  fileKeys0: seq<string>, printed0: seq<ListedLine>, count0: nat)
    returns (fileKeys: seq<string>, printed: seq<ListedLine>, count: nat)
    requires count0 == |printed0|
    requires Listed(fileKeys0, printed0, Kept(before, DepthFilter(prefixDepth, maxDepth)))
    ensures count == |printed|
    ensures Listed(fileKeys, printed, Kept(before + objs, DepthFilter(prefixDepth, maxDepth)))
  {
    fileKeys, printed, count := fileKeys0, printed0, count0;
    ghost var entry := DepthFilter(prefixDepth, maxDepth);
    assert before + objs[..0] == before;
    for j := 0 to |objs|
      invariant count == |printed|
      invariant Listed(fileKeys, printed, Kept(before + objs[..j], entry))
    {
      var obj := objs[j];
      ghost var seen := before + objs[..j];
      assert before + objs[..j + 1] == seen + [obj];
      ListStep(fileKeys, printed, seen, obj, entry);
      var key := Strip(obj.key, '/');
      var keyDepth := SplitCount(key, '/') - prefixDepth;
      ghost var e := entry(obj);
      assert e == if maxDepth > 0 && keyDepth > maxDepth then None else Some(S3Object(key, obj.size));
      if !(maxDepth > 0 && keyDepth > maxDepth) {
        var sizeStr := SizeToString(obj.size);
        fileKeys := fileKeys + [key];
        count := count + 1;
        printed := printed + [ListedLine(ZeroPad(Decimal(count), 6), sizeStr, key)];
      }
    }
    assert objs[..|objs|] == objs;
  }

  /** The i-th listed line is numbered i + 1, in six digits while the count has at most six. */
  lemma ListedNumbering(fileKeys: seq<string>, printed: seq<ListedLine>, kept: seq<S3Object>, i: nat)
    requires Listed(fileKeys, printed, kept) && i < |kept|
    ensures AllDigits(printed[i].number) && DecimalValue(printed[i].number) == i + 1
    ensures i + 1 < 1000000 ==> |printed[i].number| == 6
  {
    ZeroPadDecimal(i + 1, 6);
    if i + 1 < 1000000 {
      assert Pow10(6) == 1000000;
      DecimalLength(i + 1, 6);
    }
  }

  /** Without a depth limit every object on every page is printed, in order. */
  lemma RunS3LsListsAll(pages: seq<Page>, prefixDepth: nat, fileKeys: seq<string>, printed: seq<ListedLine>)
    requires Listed(fileKeys, printed, Kept(PageObjects(pages), DepthFilter(prefixDepth, 0)))
    ensures |printed| == |PageObjects(pages)|
    ensures forall i :: 0 <= i < |printed| ==> printed[i].key == Strip(PageObjects(pages)[i].key, '/')
  {
    var objs := PageObjects(pages);
    var entry := DepthFilter(prefixDepth, 0);
    forall i | 0 <= i < |objs|
      ensures entry(objs[i]).Some?
    {
      NoMaxDepthSkipsNothing(objs[i], prefixDepth, 0);
    }
    KeptAll(objs, entry);
  }

  // ---------------------------------------------------------------------------------------
  // Comparing saved listings

  /** Saved listing files by name, each as its lines. */
  type Files = map<string, seq<string>>

  /** What `do_diff` prints, and the error it stops with when a listing file is missing. */
  datatype Report = Report(printed: seq<string>, error: Option<Error>)

  function CountLine(n: nat, path: string, side: string): string {
    "=== " + Decimal(n) + " " + path + " " + side + " files"
  }

  function MatchLine(total: nat): string {
    "=== Files in S3 match with Local, total " + Decimal(total)
  }

  function MissingLine(missing: nat): string {
    "=== " + Decimal(missing) + " files are missing in S3 as compared to Local"
  }

  /** The last line `do_diff` prints. */
  function Verdict(localFiles: seq<string>, s3Files: seq<string>): string {
    var diff := Missing(localFiles, set n | n in s3Files);
    if |diff| == 0 then MatchLine(|localFiles|) else MissingLine(|diff|)
  }

  lemma MatchLineIsNotMissingLine(total: nat, missing: nat)
    ensures MatchLine(total) != MissingLine(missing)
  {
    var d := Decimal(missing);
    assert IsDigit(d[0]);
    assert MissingLine(missing)[4] == d[0];
    assert !IsDigit(MatchLine(total)[4]);
  }

  /** The verdict is the match line, with the local count, exactly when every local name is
      among the S3 names. */
  lemma VerdictMatches(localFiles: seq<string>, s3Files: seq<string>)
    ensures Verdict(localFiles, s3Files) == MatchLine(|localFiles|)
            <==> forall n :: n in localFiles ==> n in s3Files
  {
    var s3Set := set n | n in s3Files;
    MissingEmptyIff(localFiles, s3Set);
    var diff := Missing(localFiles, s3Set);
    if |diff| > 0 {
      MatchLineIsNotMissingLine(|localFiles|, |diff|);
    }
  }

  /** When some local name is not in S3, the verdict gives how many local names S3 lacks, a
      name counted as often as it is listed locally. */
  lemma VerdictCountsMissing(localFiles: seq<string>, s3Files: seq<string>)
    requires exists n :: n in localFiles && n !in s3Files
    ensures Verdict(localFiles, s3Files) == MissingLine(|Missing(localFiles, set n | n in s3Files)|)
    ensures |Missing(localFiles, set n | n in s3Files)| > 0
  {
    var s3Set := set n | n in s3Files;
    MissingIff(localFiles, s3Set);
    var n :| n in localFiles && n !in s3Files;
    assert n in Missing(localFiles, s3Set);
  }

  function DiffReport(files: Files, s3LsOut: string, localLsOut: string): Report {
    if s3LsOut !in files then Report([], Some(FileNotFound(s3LsOut)))
    else
      var s3Files := Names(files[s3LsOut]);
      var first := CountLine(|s3Files|, s3LsOut, "S3");
      if localLsOut !in files then Report([first], Some(FileNotFound(localLsOut)))
      else
        var localFiles := Names(files[localLsOut]);
        Report([first, CountLine(|localFiles|, localLsOut, "Local"), Verdict(localFiles, s3Files)], None)
  }

  /** `do_diff`: reads the S3 listing into a list and a dictionary, prints its count, reads the
      local listing, prints its count, collects the local names the dictionary lacks and
      prints the verdict. */
  method DoDiff(files: Files, s3LsOut: string, localLsOut: string) returns (printed: seq<string>, error: Option<Error>)
    ensures Report(printed, error) == DiffReport(files, s3LsOut, localLsOut)
  {
    printed := [];
    if s3LsOut !in files {
      return printed, Some(FileNotFound(s3LsOut));
    }
    var s3FileList, s3Dict := CollectNames(files[s3LsOut]);
    printed := printed + [CountLine(|s3FileList|, s3LsOut, "S3")];
    if localLsOut !in files {
      return printed, Some(FileNotFound(localLsOut));
    }
    var localFileList, _ := CollectNames(files[localLsOut]);
    printed := printed + [CountLine(|localFileList|, localLsOut, "Local")];
    var verdict := CompareNames(localFileList, s3FileList, s3Dict);
    printed := printed + [verdict];
    error := None;
  }

  /** The local names the dictionary lacks, and the verdict line on them. */
  method CompareNames(localFileList: seq<string>, ghost s3FileList: seq<string>, s3Dict: map<string, int>) returns (verdict: string)
    requires s3Dict.Keys == set n | n in s3FileList
    ensures verdict == Verdict(localFileList, s3FileList)
  {
    var diffFileList := MissingNames(localFileList, s3Dict);
    if |diffFileList| == 0 {
      return MatchLine(|localFileList|);
    }
    verdict := MissingLine(|diffFileList|);
  }
}
