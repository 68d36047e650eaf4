/**
 * The validation pipeline of src/bssig/img_val.py: loading a corpus with its
 * index-to-name mapping, standard (index by index) and best-match pairing, and the
 * choice of which operands the scorer converts to grayscale. The directory listing,
 * `random.sample`, image decoding and the SSIM scorer are passed in.
 */
module ImgVal {
  import opened Outcomes
  import opened PathOrder

  /** An entry of `os.scandir`: its path and whether it is a regular file. */
  datatype DirEntry = DirEntry(path: string, isFile: bool)

  /** The images of one directory and `{i: basename(path_i)}`. */
  datatype Corpus<Img> = Corpus(images: seq<Img>, names: map<nat, string>)

  datatype LoadError =
    | TooFewImages(available: nat, requested: int)   // raised by load_images itself
    | NegativeSample(requested: int)                 // ValueError from random.sample

  /** The `to_grayscale` values other than None: convert the first, second or both images. */
  datatype GrayTarget = Img1 | Img2 | Both

  /** One line of the result table: synthetic name, reference name (None if there was none), score. */
  datatype Row = Row(synthImg: string, refImg: Option<string>, ssim: real)

  datatype ValError = UnequalCorpora(synthCount: nat, refCount: nat)

  /** The paths of the regular files of a listing, in listing order. */
  function FilePaths(entries: seq<DirEntry>): (paths: seq<string>)
    ensures |paths| <= |entries|
    ensures forall p :: p in paths <==> DirEntry(p, true) in entries
  {
    if entries == [] then []
    else
      assert entries == [entries[0]] + entries[1..];
      FileOf(entries[0]) + FilePaths(entries[1..])
  }

  /** A path occurs among the file paths as often as the listing holds it as a regular file. */
  lemma {:induction false} FilePathCount(entries: seq<DirEntry>, p: string)
    ensures multiset(FilePaths(entries))[p] == multiset(entries)[DirEntry(p, true)]
  {
    if entries != [] {
      var rest := entries[1..];
      FilePathCount(rest, p);
      EntryCount(entries[0], p);
      assert FilePaths(entries) == FileOf(entries[0]) + FilePaths(rest);
      assert entries == [entries[0]] + rest;
    }
  }

  /** The path one entry contributes: its own if it is a regular file. */
  function FileOf(e: DirEntry): seq<string> {
    if e.isFile then [e.path] else []
  }

  lemma EntryCount(e: DirEntry, p: string)
    ensures multiset(FileOf(e))[p] == multiset{e}[DirEntry(p, true)]
  {
  }

  /** The sorted corpus does not depend on the order in which the directory was listed. */
  lemma FileListingOrderIrrelevant(e1: seq<DirEntry>, e2: seq<DirEntry>)
    requires multiset(e1) == multiset(e2)
    ensures SortPaths(FilePaths(e1)) == SortPaths(FilePaths(e2))
  {
    forall p ensures multiset(FilePaths(e1))[p] == multiset(FilePaths(e2))[p] {
      FilePathCount(e1, p);
      FilePathCount(e2, p);
    }
    assert multiset(FilePaths(e1)) == multiset(FilePaths(e2));
    ListingOrderIrrelevant(FilePaths(e1), FilePaths(e2));
  }

  /** What `random.sample` may return as positions in a population of the given size: distinct and in range. */
  predicate ValidPick(pick: seq<nat>, population: nat) {
    && (forall k :: 0 <= k < |pick| ==> pick[k] < population)
    && (forall a, b :: 0 <= a < b < |pick| ==> pick[a] != pick[b])
  }

  /**
   * The paths `load_images` reads, in order: the sorted file paths, or `n` of them
   * sampled without replacement at the positions `pick` when a subset size is given.
   */
  function ChosenPaths(entries: seq<DirEntry>, nRand: Option<int>, pick: seq<nat>): (r: Result<seq<string>, LoadError>)
    requires ValidPick(pick, |FilePaths(entries)|)
    requires nRand.Some? && 0 <= nRand.value <= |FilePaths(entries)| ==> |pick| == nRand.value
    ensures nRand.None? ==> r == Success(SortPaths(FilePaths(entries)))
    ensures nRand.Some? && nRand.value > |FilePaths(entries)| ==>
      r == Failure(TooFewImages(|FilePaths(entries)|, nRand.value))
    ensures nRand.Some? && nRand.value < 0 ==> r == Failure(NegativeSample(nRand.value))
    ensures nRand.Some? && 0 <= nRand.value <= |FilePaths(entries)| ==>
      r.Success? && |r.value| == nRand.value && forall k :: 0 <= k < |r.value| ==> r.value[k] in FilePaths(entries)
  {
    var paths := SortPaths(FilePaths(entries));
    assert |paths| == |FilePaths(entries)| by {
      assert |multiset(paths)| == |multiset(FilePaths(entries))|;
    }
    match nRand
    case None => Success(paths)
    case Some(n) =>
      if n > |paths| then Failure(TooFewImages(|paths|, n))
      else if n < 0 then Failure(NegativeSample(n))
      else
        var chosen := seq(n, k requires 0 <= k < n => paths[pick[k]]);
        assert forall k :: 0 <= k < n ==> chosen[k] in FilePaths(entries) by {
          forall k | 0 <= k < n ensures chosen[k] in FilePaths(entries) {
            assert paths[pick[k]] in multiset(paths);
          }
        }
        Success(chosen)
  }

  /** Without a subset size, the corpus is every file of the directory, in sorted order. */
  lemma AllPathsSorted(entries: seq<DirEntry>, pick: seq<nat>)
    requires ValidPick(pick, |FilePaths(entries)|)
    ensures ChosenPaths(entries, None, pick).Success?
    ensures Sorted(ChosenPaths(entries, None, pick).value)
    ensures forall p :: p in ChosenPaths(entries, None, pick).value <==> DirEntry(p, true) in entries
  {
    var paths := SortPaths(FilePaths(entries));
    forall p ensures p in paths <==> p in FilePaths(entries) {
      assert p in paths <==> p in multiset(paths);
      assert p in FilePaths(entries) <==> p in multiset(FilePaths(entries));
    }
  }

  /** `rfind`: the last position holding `c`, or -1. */
  function RFind(s: string, c: char): (i: int)
    ensures -1 <= i < |s|
    ensures i >= 0 ==> s[i] == c
    ensures forall j :: i < j < |s| ==> s[j] != c
  {
    if s == [] then -1
    else if s[|s| - 1] == c then |s| - 1
    else RFind(s[..|s| - 1], c)
  }

  /** `os.path.basename`: what follows the last '/'. */
  function Basename(p: string): (b: string)
    ensures '/' !in b
    ensures |b| <= |p| && b == p[|p| - |b|..]
    ensures |b| < |p| ==> p[|p| - |b| - 1] == '/'
  {
    p[RFind(p, '/') + 1..]
  }

  /** `{i: os.path.basename(paths[i]) for i in range(len(paths))}`. */
  function IndexNames(paths: seq<string>): (names: map<nat, string>)
    ensures forall i: nat :: i in names <==> i < |paths|
    ensures |names| == |paths|
    ensures forall i :: 0 <= i < |paths| ==> names[i] == Basename(paths[i])
  {
    var names := map i: nat | i < |paths| :: Basename(paths[i]);
    IndexMapSize(names, |paths|);
    names
  }

  /** A map whose keys are exactly `0..n-1` has `n` entries. */
  lemma {:induction false} IndexMapSize(m: map<nat, string>, n: nat)
    requires forall i: nat :: i in m <==> i < n
    ensures |m| == n
  {
    if n > 0 {
      var rest := m - {n - 1};
      IndexMapSize(rest, n - 1);
      assert m.Keys == rest.Keys + {n - 1};
    } else {
      assert m.Keys == {};
    }
  }

  /** The corpus holds the decoded images of `paths`, in order, and their names by index. */
  ghost predicate LoadedFrom<Img>(corpus: Corpus<Img>, paths: seq<string>, decode: string -> Img) {
    && |corpus.images| == |paths| == |corpus.names|
    && (forall i: nat :: i in corpus.names <==> i < |paths|)
    && (forall i :: 0 <= i < |paths| ==> corpus.images[i] == decode(paths[i]) && corpus.names[i] == Basename(paths[i]))
  }

  /**
   * `load_images`: choose the paths, decode each in order, and map each index to the
   * basename of its path. `decode` stands for reading and converting one image.
   */
  method LoadImages<Img>(entries: seq<DirEntry>, nRand: Option<int>, pick: seq<nat>, decode: string -> Img)
    returns (r: Result<Corpus<Img>, LoadError>)
    requires ValidPick(pick, |FilePaths(entries)|)
    requires nRand.Some? && 0 <= nRand.value <= |FilePaths(entries)| ==> |pick| == nRand.value
    ensures r.Failure? <==> ChosenPaths(entries, nRand, pick).Failure?
    ensures r.Failure? ==> r.error == ChosenPaths(entries, nRand, pick).error
    ensures r.Success? ==> LoadedFrom(r.value, ChosenPaths(entries, nRand, pick).value, decode)
  {
    var chosen := ChosenPaths(entries, nRand, pick);
    if chosen.Failure? {
      return Failure(chosen.error);
    }
    var paths := chosen.value;
    var images := DecodeAll(paths, decode);
    var names := IndexNames(paths);
    assert LoadedFrom(Corpus(images, names), paths, decode);
    return Success(Corpus(images, names));
  }

  /** The images of `paths`, decoded one by one in order. */
  method DecodeAll<Img>(paths: seq<string>, decode: string -> Img) returns (images: seq<Img>)
    ensures |images| == |paths|
    ensures forall i :: 0 <= i < |paths| ==> images[i] == decode(paths[i])
  {
    images := [];
    for i := 0 to |paths|
      invariant |images| == i
      invariant forall k :: 0 <= k < i ==> images[k] == decode(paths[k])
    {
      images := images + [decode(paths[i])];
    }
  }

  /** Both name maps cover the indices of their corpus, as the maps `LoadImages` builds do. */
  predicate Indexed(names: map<nat, string>, n: nat) {
    forall i: nat :: i < n ==> i in names
  }

  /**
   * `calc_ssims`: corpora of unequal size are an error and give no table; otherwise one
   * row per index, pairing the i-th synthetic image with the i-th reference image.
   */
  method CalcSsims<Img>(synth: seq<Img>, synthNames: map<nat, string>, ref: seq<Img>, refNames: map<nat, string>,
                        toGray: Option<GrayTarget>, ssim: (Img, Img, Option<GrayTarget>) -> real)
    returns (r: Result<seq<Row>, ValError>)
    requires Indexed(synthNames, |synth|) && Indexed(refNames, |ref|)
    ensures r.Failure? <==> |synth| != |ref|
    ensures r.Failure? ==> r.error == UnequalCorpora(|synth|, |ref|)
    ensures r.Success? ==>
      && |r.value| == |synth|
      && forall i :: 0 <= i < |synth| ==> r.value[i] == Row(synthNames[i], Some(refNames[i]), ssim(synth[i], ref[i], toGray))
  {
    if |synth| != |ref| {
      return Failure(UnequalCorpora(|synth|, |ref|));
    }
    var rows: seq<Row> := [];
    for i := 0 to |ref|
      invariant |rows| == i
      invariant forall k :: 0 <= k < i ==> rows[k] == Row(synthNames[k], Some(refNames[k]), ssim(synth[k], ref[k], toGray))
    {
      var score := ssim(synth[i], ref[i], toGray);
      rows := rows + [Row(synthNames[i], Some(refNames[i]), score)];
    }
    return Success(rows);
  }

  /** `k` holds the largest score, and every earlier score is strictly smaller. */
  predicate IsFirstMax(s: seq<real>, k: int) {
    && 0 <= k < |s|
    && (forall j :: 0 <= j < |s| ==> s[j] <= s[k])
    && (forall j :: 0 <= j < k ==> s[j] < s[k])
  }

  /** The position a left-to-right scan keeps when it replaces its best only on a strictly larger score. */
  function FirstMax(s: seq<real>): (k: nat)
    requires |s| > 0
    ensures IsFirstMax(s, k)
  {
    if |s| == 1 then 0
    else
      var k := FirstMax(s[..|s| - 1]);
      if s[|s| - 1] > s[k] then |s| - 1 else k
  }

  /** The scores of one synthetic image against each reference image, in corpus order. */
  function Scores<Img>(x: Img, refs: seq<Img>, toGray: Option<GrayTarget>, ssim: (Img, Img, Option<GrayTarget>) -> real): seq<real> {
    seq(|refs|, j requires 0 <= j < |refs| => ssim(x, refs[j], toGray))
  }

  /** The best-match row for one synthetic image, given its scores against the reference corpus. */
  function BestRow(name: string, scores: seq<real>, refNames: map<nat, string>): (row: Row)
    requires Indexed(refNames, |scores|)
    ensures |scores| == 0 ==> row == Row(name, None, 0.0)
    ensures |scores| > 0 ==> exists k: nat :: IsFirstMax(scores, k) && row == Row(name, Some(refNames[k]), scores[k])
  {
    if |scores| == 0 then Row(name, None, 0.0)
    else
      var k := FirstMax(scores);
      Row(name, Some(refNames[k]), scores[k])
  }

  /** A best row carries a score at least as high as every score it was chosen from. */
  lemma BestRowIsMax(name: string, scores: seq<real>, refNames: map<nat, string>, j: nat)
    requires Indexed(refNames, |scores|) && j < |scores|
    ensures scores[j] <= BestRow(name, scores, refNames).ssim
    ensures BestRow(name, scores, refNames).refImg.Some?
  {
    var k := FirstMax(scores);
    assert BestRow(name, scores, refNames) == Row(name, Some(refNames[k]), scores[k]);
  }

  /**
   * The inner loop of `calc_ssims_best_match` for one synthetic image: scan the reference
   * images in order and keep the first with the highest score.
   */
  method BestMatch<Img>(x: Img, name: string, ref: seq<Img>, refNames: map<nat, string>,
                        toGray: Option<GrayTarget>, ssim: (Img, Img, Option<GrayTarget>) -> real)
    returns (row: Row)
    requires Indexed(refNames, |ref|)
    ensures row == BestRow(name, Scores(x, ref, toGray, ssim), refNames)
  {
    ghost var scores := Scores(x, ref, toGray, ssim);
    var bestImg: Option<string> := None;
    var bestSsim := 0.0;
    ghost var bestK: nat := 0;
    for j := 0 to |ref|
      invariant j == 0 ==> bestImg == None && bestSsim == 0.0
      invariant j > 0 ==> bestK == FirstMax(scores[..j]) && bestImg == Some(refNames[bestK]) && bestSsim == scores[bestK]
    {
      var score := ssim(x, ref[j], toGray);
      assert scores[..j + 1][..j] == scores[..j];
      if bestImg.None? || score > bestSsim {
        bestImg := Some(refNames[j]);
        bestSsim := score;
        bestK := j;
      }
    }
    assert scores[..|ref|] == scores;
    row := Row(name, bestImg, bestSsim);
  }

  /**
   * `calc_ssims_best_match`: one row per synthetic image, holding the reference image
   * with the highest score, the earliest one on a tie; `(name, None, 0.0)` when the
   * reference corpus is empty.
   */
  method CalcSsimsBestMatch<Img>(synth: seq<Img>, synthNames: map<nat, string>, ref: seq<Img>, refNames: map<nat, string>,
                                 toGray: Option<GrayTarget>, ssim: (Img, Img, Option<GrayTarget>) -> real)
    returns (rows: seq<Row>)
    requires Indexed(synthNames, |synth|) && Indexed(refNames, |ref|)
    ensures |rows| == |synth|
    ensures forall i :: 0 <= i < |synth| ==> rows[i] == BestRow(synthNames[i], Scores(synth[i], ref, toGray, ssim), refNames)
    ensures forall i, j :: 0 <= i < |synth| && 0 <= j < |ref| ==> ssim(synth[i], ref[j], toGray) <= rows[i].ssim
  {
    rows := [];
    for i := 0 to |synth|
      invariant |rows| == i
      invariant forall k :: 0 <= k < i ==> rows[k] == BestRow(synthNames[k], Scores(synth[k], ref, toGray, ssim), refNames)
    {
      var row := BestMatch(synth[i], synthNames[i], ref, refNames, toGray, ssim);
      rows := rows + [row];
    }
    forall i, j | 0 <= i < |synth| && 0 <= j < |ref| ensures ssim(synth[i], ref[j], toGray) <= rows[i].ssim {
      var scores := Scores(synth[i], ref, toGray, ssim);
      BestRowIsMax(synthNames[i], scores, refNames, j);
    }
  }

  /** The first operand of the scorer, the synthetic image, is converted to grayscale. */
  predicate GraysSynth(mode: Option<GrayTarget>) {
    mode == Some(Img1) || mode == Some(Both)
  }

  /** The second operand of the scorer, the reference image, is converted to grayscale. */
  predicate GraysRef(mode: Option<GrayTarget>) {
    mode == Some(Img2) || mode == Some(Both)
  }

  /** The `to_grayscale` value `main` passes on, from the two command-line flags. */
  function GrayscaleMode(grayscaleSynth: bool, grayscaleRef: bool): (mode: Option<GrayTarget>)
    ensures GraysSynth(mode) <==> grayscaleSynth
    ensures GraysRef(mode) <==> grayscaleRef
  {
    var afterSynth := if grayscaleSynth then Some(Img1) else None;
    if !grayscaleRef then afterSynth
    else if afterSynth.Some? then Some(Both)
    else Some(Img2)
  }

  /** The two conversions determine the mode, so `GrayscaleMode`'s contract fixes its result. */
  lemma GrayModeDetermined(m1: Option<GrayTarget>, m2: Option<GrayTarget>)
    requires GraysSynth(m1) == GraysSynth(m2) && GraysRef(m1) == GraysRef(m2)
    ensures m1 == m2
  {
    match (m1, m2)
    case (Some(Img1), _) =>
    case (Some(Img2), _) =>
    case (Some(Both), _) =>
    case (None, None) =>
    case (None, Some(Img1)) =>
    case (None, Some(Img2)) =>
    case (None, Some(Both)) =>
  }
}
