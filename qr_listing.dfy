/** The name extraction both listing-diff tools share: `re.search` of the pattern
    `.*\s(qr\S+)` over one line of an `ls` listing, and the ordered difference of two name
    lists. */
module QrListing {
  import opened Wrappers
  import opened Text

  /** The pattern's tail `\sqr\S` matches at p: a whitespace character, then "qr", then a
      character that is not whitespace. */
  predicate ValidAt(line: string, p: nat) {
    p + 3 < |line| && IsSpace(line[p]) && line[p + 1] == 'q' && line[p + 2] == 'r' && !IsSpace(line[p + 3])
  }

  /** The first newline at or after s, or the length; `.` stops at a newline. */
  function LineEnd(line: string, s: nat): (e: nat)
    requires s <= |line|
    ensures s <= e <= |line|
    ensures forall j :: s <= j < e ==> line[j] != '\n'
    ensures e < |line| ==> line[e] == '\n'
    decreases |line| - s
  {
    if s == |line| || line[s] == '\n' then s else LineEnd(line, s + 1)
  }

  /** Backtracking of the greedy `.*`: the last position in [lo, hi] where the tail matches. */
  function RightmostValid(line: string, lo: nat, hi: nat): (r: Option<nat>)
    ensures r.Some? ==> lo <= r.value <= hi && ValidAt(line, r.value)
    ensures r.Some? ==> forall q :: r.value < q <= hi ==> !ValidAt(line, q)
    ensures r.None? ==> forall q :: lo <= q <= hi ==> !ValidAt(line, q)
    decreases hi
  {
    if hi < lo then None
    else if ValidAt(line, hi) then Some(hi)
    else if hi == 0 then None
    else RightmostValid(line, lo, hi - 1)
  }

  /** `re.search`: the first start position from which the pattern matches, with the greedy
      `.*` taking the longest run of non-newline characters it can. */
  function SearchFrom(line: string, s: nat): Option<nat>
    requires s <= |line|
    decreases |line| - s
  {
    match RightmostValid(line, s, LineEnd(line, s))
    case Some(p) => Some(p)
    case None => if s == |line| then None else SearchFrom(line, s + 1)
  }

  /** The end of the run of non-whitespace characters starting at i; `\S+` is greedy. */
  function RunEnd(line: string, i: nat): (e: nat)
    requires i <= |line|
    ensures i <= e <= |line|
    ensures forall j :: i <= j < e ==> !IsSpace(line[j])
    ensures e < |line| ==> IsSpace(line[e])
    decreases |line| - i
  {
    if i == |line| || IsSpace(line[i]) then i else RunEnd(line, i + 1)
  }

  /** The name a listing line yields: the group `(qr\S+)` of the match, if the line matches. */
  function QrName(line: string): Option<string> {
    match SearchFrom(line, 0)
    case None => None
    case Some(p) =>
      if p + 3 < |line| then Some(line[p + 1 .. RunEnd(line, p + 3)]) else None
  }

  lemma {:induction false} SearchFromFinds(line: string, s: nat)
    requires s <= |line|
    ensures SearchFrom(line, s).Some? ==> s <= SearchFrom(line, s).value && ValidAt(line, SearchFrom(line, s).value)
    ensures SearchFrom(line, s).Some? <==> exists p :: s <= p && ValidAt(line, p)
    decreases |line| - s
  {
    var w := RightmostValid(line, s, LineEnd(line, s));
    if w.None? {
      if s < |line| {
        SearchFromFinds(line, s + 1);
        if exists p :: s <= p && ValidAt(line, p) {
          var p :| s <= p && ValidAt(line, p);
          assert p != s;
        }
      } else {
        assert forall p :: s <= p ==> !ValidAt(line, p);
      }
    }
  }

  /** A line yields a name exactly when it has a whitespace character followed by "qr" and a
      non-whitespace character. */
  lemma QrNameIff(line: string)
    ensures QrName(line).Some? <==> exists p :: ValidAt(line, p)
  {
    SearchFromFinds(line, 0);
  }

  /** The match the name comes from: the position of the whitespace character before "qr",
      and the group running to the end of the non-whitespace run. */
  lemma MatchedGroup(line: string) returns (p: nat, e: nat)
    requires QrName(line).Some?
    ensures ValidAt(line, p) && e == RunEnd(line, p + 3)
    ensures QrName(line).value == line[p + 1 .. e]
  {
    SearchFromFinds(line, 0);
    p := SearchFrom(line, 0).value;
    e := RunEnd(line, p + 3);
  }

  /** The name starts with "qr", is at least three characters long and holds no
      whitespace. */
  lemma QrNameShape(line: string)
    requires QrName(line).Some?
    ensures var name := QrName(line).value;
            && |name| >= 3 && name[..2] == "qr"
            && forall j :: 0 <= j < |name| ==> !IsSpace(name[j])
  {
    var p, e := MatchedGroup(line);
    var name := line[p + 1 .. e];
    assert name[..2] == line[p + 1 .. p + 3];
    SliceHasNoSpace(line, p + 1, e);
  }

  /** The name follows a whitespace character of the line and is the whole non-whitespace
      run there. */
  lemma QrNameMaximal(line: string)
    requires QrName(line).Some?
    ensures var name := QrName(line).value;
            exists p: nat :: && ValidAt(line, p) && p + 1 + |name| <= |line|
                             && line[p + 1 .. p + 1 + |name|] == name
                             && (p + 1 + |name| == |line| || IsSpace(line[p + 1 + |name|]))
  {
    var p, e := MatchedGroup(line);
    var name := line[p + 1 .. e];
    assert p + 1 + |name| == e;
    assert line[p + 1 .. p + 1 + |name|] == name;
  }

  lemma SliceHasNoSpace(line: string, lo: nat, hi: nat)
    requires lo <= hi <= |line|
    requires forall j :: lo <= j < hi ==> !IsSpace(line[j])
    ensures forall j :: 0 <= j < hi - lo ==> !IsSpace(line[lo .. hi][j])
  {
  }

  /** On a line with no newline before its last character, the greedy `.*` puts the match at
      the last place where `\sqr\S` occurs. */
  lemma QrNameIsRightmost(line: string)
    requires forall j :: 0 <= j < |line| - 1 ==> line[j] != '\n'
    requires SearchFrom(line, 0).Some?
    ensures forall q :: SearchFrom(line, 0).value < q ==> !ValidAt(line, q)
  {
    var e := LineEnd(line, 0);
    assert e >= |line| - 1;
    SearchFromFinds(line, 0);
  }

  /** The names of the lines that yield one, in line order; other lines are skipped. */
  function Names(lines: seq<string>): (names: seq<string>)
    ensures |names| <= |lines|
    decreases |lines|
  {
    if |lines| == 0 then []
    else
      var prev := Names(lines[..|lines| - 1]);
      match QrName(lines[|lines| - 1])
      case Some(n) => prev + [n]
      case None => prev
  }

  /** Every extracted name is the name of some line. */
  lemma {:induction false} NamesFromLines(lines: seq<string>)
    ensures forall n :: n in Names(lines) ==> exists i :: 0 <= i < |lines| && QrName(lines[i]) == Some(n)
    decreases |lines|
  {
    if |lines| > 0 {
      var k := |lines| - 1;
      var prefix := lines[..k];
      NamesFromLines(prefix);
      forall n | n in Names(lines)
        ensures exists i :: 0 <= i < |lines| && QrName(lines[i]) == Some(n)
      {
        if n in Names(prefix) {
          var i :| 0 <= i < |prefix| && QrName(prefix[i]) == Some(n);
          assert lines[i] == prefix[i];
        } else {
          assert QrName(lines[k]) == Some(n);
        }
      }
    }
  }

  /** Every line that matches contributes its name. */
  lemma {:induction false} LinesGiveNames(lines: seq<string>)
    ensures forall i :: 0 <= i < |lines| && QrName(lines[i]).Some? ==> QrName(lines[i]).value in Names(lines)
    decreases |lines|
  {
    if |lines| > 0 {
      var k := |lines| - 1;
      var prefix := lines[..k];
      LinesGiveNames(prefix);
      forall i | 0 <= i < k && QrName(lines[i]).Some?
        ensures QrName(lines[i]).value in Names(lines)
      {
        assert lines[i] == prefix[i];
      }
    }
  }

  /** Two equal matching lines give the name twice: the count of names is a count of
      lines. */
  lemma NamesKeepDuplicates(lines: seq<string>, line: string)
    requires QrName(line).Some?
    ensures Names(lines + [line, line]) == Names(lines) + [QrName(line).value, QrName(line).value]
  {
    var once := lines + [line];
    assert (lines + [line, line])[..|once|] == once;
    assert once[..|lines|] == lines;
  }

  /** The local names the S3 names lack, in local order, duplicates kept. */
  function Missing(local: seq<string>, s3: set<string>): (r: seq<string>)
    decreases |local|
  {
    if |local| == 0 then []
    else
      var prev := Missing(local[..|local| - 1], s3);
      var f := local[|local| - 1];
      if f in s3 then prev else prev + [f]
  }

  /** A name is reported missing exactly as often as it occurs locally, when S3 lacks it, and
      never when S3 has it. */
  lemma {:induction false} MissingCounts(local: seq<string>, s3: set<string>)
    ensures forall n :: multiset(Missing(local, s3))[n] == if n in s3 then 0 else multiset(local)[n]
    decreases |local|
  {
    if |local| > 0 {
      var k := |local| - 1;
      MissingCounts(local[..k], s3);
      assert local == local[..k] + [local[k]];
    }
  }

  /** Every reported name is local and absent from S3, and every local name absent from S3 is
      reported; the report is no longer than the local list. */
  lemma MissingIff(local: seq<string>, s3: set<string>)
    ensures forall n :: n in Missing(local, s3) <==> n in local && n !in s3
    ensures |Missing(local, s3)| <= |local|
  {
    MissingCounts(local, s3);
    forall n
      ensures n in Missing(local, s3) <==> n in local && n !in s3
    {
      assert n in Missing(local, s3) <==> multiset(Missing(local, s3))[n] > 0;
      assert n in local <==> multiset(local)[n] > 0;
    }
    MissingShorter(local, s3);
  }

  /** Nothing is missing exactly when every local name is in S3. */
  lemma {:induction false} MissingEmptyIff(local: seq<string>, s3: set<string>)
    ensures Missing(local, s3) == [] <==> forall n :: n in local ==> n in s3
    decreases |local|
  {
    if |local| > 0 {
      var k := |local| - 1;
      MissingEmptyIff(local[..k], s3);
      assert local == local[..k] + [local[k]];
    }
  }

  lemma {:induction false} MissingShorter(local: seq<string>, s3: set<string>)
    ensures |Missing(local, s3)| <= |local|
    decreases |local|
  {
    if |local| > 0 {
      MissingShorter(local[..|local| - 1], s3);
    }
  }

  /** Reads the names of a listing, line by line, into a list and into the dictionary that
      membership is checked against. */
  method CollectNames(lines: seq<string>) returns (files: seq<string>, dict: map<string, int>)
    ensures files == Names(lines)
    ensures dict.Keys == set n | n in files
    ensures forall n :: n in dict ==> dict[n] == 1
  {
    files := [];
    dict := map[];
    for i := 0 to |lines|
      invariant files == Names(lines[..i])
      invariant dict.Keys == set n | n in files
      invariant forall n :: n in dict ==> dict[n] == 1
    {
      assert lines[..i + 1][..i] == lines[..i];
      var m := QrName(lines[i]);
      assert lines[..i + 1][i] == lines[i];
      if m.Some? {
        files := files + [m.value];
        dict := dict[m.value := 1];
      }
    }
    assert lines[..|lines|] == lines;
  }

  /** The local names not in the dictionary, in local order. */
  method MissingNames(local: seq<string>, dict: map<string, int>) returns (diff: seq<string>)
    ensures diff == Missing(local, dict.Keys)
  {
    diff := [];
    for i := 0 to |local|
      invariant diff == Missing(local[..i], dict.Keys)
    {
      assert local[..i + 1][..i] == local[..i];
      if local[i] !in dict {
        diff := diff + [local[i]];
      }
    }
    assert local[..|local|] == local;
  }
}
