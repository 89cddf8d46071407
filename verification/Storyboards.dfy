/** Splitting a storyboard into packages of consecutive shots, `split_storyboard_packages`. */
module Storyboards {
  import opened Texts

  // ---------- headers ----------

  /** The number of digits a text begins with. */
  function Digits(s: string): (n: nat)
    ensures n <= |s|
  {
    if s != [] && AsciiDigit(s[0]) then 1 + Digits(s[1..]) else 0
  }

  /** `1-2 ..`: digits, a dash, digits. */
  predicate IsSceneHeading(s: string) {
    var n := Digits(s);
    n > 0 && n < |s| && s[n] == '-' && Digits(s[n + 1..]) > 0
  }

  predicate IsUnitHeader(line: string) {
    var bare := Trim(TrimStart(Trim(line), c => c == '#'));
    var text := Trim(TrimEnd(TrimStart(bare, c => c == '*'), c => c == '*'));
    StartsWith(text, "镜头") || StartsWith(text, "Shot") || IsSceneHeading(text)
  }

  // ---------- shots ----------

  datatype Shot = Shot(number: nat, lines: seq<string>)

  datatype Title = Whole | Shots(first: nat, last: nat)

  datatype Package = Package(index: nat, title: Title, shots: nat, lines: seq<string>)

  function LinesOf(shots: seq<Shot>): seq<string> {
    if shots == [] then [] else LinesOf(shots[..|shots| - 1]) + shots[|shots| - 1].lines
  }

  /** The lines from the first header on. */
  function FromFirstHeader(lines: seq<string>, header: string -> bool): seq<string> {
    if lines == [] || header(lines[0]) then lines else FromFirstHeader(lines[1..], header)
  }

  /** A header with the lines up to the next one. */
  ghost predicate IsShot(lines: seq<string>, header: string -> bool) {
    lines != [] && header(lines[0]) && forall i | 1 <= i < |lines| :: !header(lines[i])
  }

  /** Shots numbered from 0 on, each a header with its lines. */
  ghost predicate AreShots(shots: seq<Shot>, header: string -> bool) {
    forall i | 0 <= i < |shots| :: shots[i].number == i && IsShot(shots[i].lines, header)
  }

  lemma {:induction false} FromFirstHeaderMore(lines: seq<string>, line: string, header: string -> bool)
    ensures FromFirstHeader(lines + [line], header) ==
              if FromFirstHeader(lines, header) != [] || header(line) then FromFirstHeader(lines, header) + [line] else []
  {
    if lines == [] {
      assert [line][1..] == [];
    } else if !header(lines[0]) {
      assert (lines + [line])[1..] == lines[1..] + [line];
      FromFirstHeaderMore(lines[1..], line, header);
    }
  }

  lemma LinesOfMore(shots: seq<Shot>, shot: Shot)
    ensures LinesOf(shots + [shot]) == LinesOf(shots) + shot.lines
  {
    assert (shots + [shot])[..|shots|] == shots;
  }

  /** The shot that ends, with its number. */
  method CloseShot(shots: seq<Shot>, current: seq<string>, header: string -> bool) returns (shots': seq<Shot>)
    requires AreShots(shots, header) && (current != [] ==> IsShot(current, header))
    ensures AreShots(shots', header) && LinesOf(shots') == LinesOf(shots) + current
    ensures shots' == [] <==> shots == [] && current == []
  {
    shots' := shots;
    if current != [] {
      LinesOfMore(shots, Shot(|shots|, current));
      shots' := shots + [Shot(|shots|, current)];
    }
  }

  /** The scan over the lines; a shot is `current` until the next header. */
  method SplitShots(lines: seq<string>, header: string -> bool) returns (shots: seq<Shot>)
    ensures AreShots(shots, header) && LinesOf(shots) == FromFirstHeader(lines, header)
    ensures shots == [] <==> forall i | 0 <= i < |lines| :: !header(lines[i])
  {
    shots := [];
    var current: seq<string> := [];
    for k := 0 to |lines|
      invariant AreShots(shots, header) && (current == [] ==> shots == []) && (current != [] ==> IsShot(current, header))
      invariant LinesOf(shots) + current == FromFirstHeader(lines[..k], header)
      invariant current == [] <==> forall j | 0 <= j < k :: !header(lines[j])
    {
      assert lines[..k + 1] == lines[..k] + [lines[k]];
      FromFirstHeaderMore(lines[..k], lines[k], header);
      if header(lines[k]) {
        shots := CloseShot(shots, current, header);
        current := [lines[k]];
      } else if current != [] {
        assert LinesOf(shots) + (current + [lines[k]]) == (LinesOf(shots) + current) + [lines[k]];
        current := current + [lines[k]];
      }
    }
    assert lines[..|lines|] == lines;
    shots := CloseShot(shots, current, header);
  }

  // ---------- packages ----------

  function PackageLines(packages: seq<Package>): seq<string> {
    if packages == [] then [] else PackageLines(packages[..|packages| - 1]) + packages[|packages| - 1].lines
  }

  /** The package holds the shots its title names, and at most `per` of them. */
  ghost predicate IsPackage(p: Package, k: nat, per: nat, shots: seq<Shot>) {
    && p.index == k && p.title.Shots? && p.title.first <= p.title.last < |shots|
    && p.shots == p.title.last - p.title.first + 1 <= per && p.lines == LinesOf(shots[p.title.first..p.title.last + 1])
  }

  /**
    The titles cover the shots up to `end` from the first on, each package beginning where the one before
    ends, and every package but the last one is full.
  */
  ghost predicate Cover(packages: seq<Package>, per: nat, shots: seq<Shot>, end: nat)
    decreases |packages|
  {
    if packages == [] then end == 0 else
      var n := |packages| - 1;
      && IsPackage(packages[n], n, per, shots) && packages[n].title.last + 1 == end
      && Cover(packages[..n], per, shots, packages[n].title.first)
      && (n > 0 ==> packages[n - 1].shots == per)
  }

  lemma {:induction false} LinesOfConcat(xs: seq<Shot>, ys: seq<Shot>)
    ensures LinesOf(xs + ys) == LinesOf(xs) + LinesOf(ys)
    decreases |ys|
  {
    if ys == [] {
      assert xs + ys == xs;
    } else {
      assert (xs + ys)[..|xs + ys| - 1] == xs + ys[..|ys| - 1];
      LinesOfConcat(xs, ys[..|ys| - 1]);
    }
  }

  lemma CoverMore(packages: seq<Package>, per: nat, shots: seq<Shot>, end: nat, next: Package)
    requires Cover(packages, per, shots, end) && (packages != [] ==> packages[|packages| - 1].shots == per)
    requires IsPackage(next, |packages|, per, shots) && next.title.first == end
    ensures Cover(packages + [next], per, shots, next.title.last + 1)
    ensures PackageLines(packages + [next]) == PackageLines(packages) + next.lines
  {
    assert (packages + [next])[..|packages|] == packages;
  }

  ghost predicate Numbered(shots: seq<Shot>) {
    forall i | 0 <= i < |shots| :: shots[i].number == i
  }

  /** One chunk, with its title and lines. */
  method NextPackage(shots: seq<Shot>, at: nat, per: nat, index: nat) returns (p: Package)
    requires per >= 1 && at < |shots| && Numbered(shots)
    ensures IsPackage(p, index, per, shots) && p.title.first == at
    ensures p.shots == if at + per < |shots| then per else |shots| - at
    ensures LinesOf(shots[..at + p.shots]) == LinesOf(shots[..at]) + p.lines
  {
    var end := if at + per < |shots| then at + per else |shots|;
    var chunk := shots[at..end];
    assert chunk[0] == shots[at] && chunk[|chunk| - 1] == shots[end - 1];
    p := Package(index, Shots(chunk[0].number, chunk[|chunk| - 1].number), |chunk|, LinesOf(chunk));
    assert shots[..end] == shots[..at] + chunk;
    LinesOfConcat(shots[..at], chunk);
  }

  /** `shots.chunks(per)`. */
  method Pack(shots: seq<Shot>, per: nat) returns (packages: seq<Package>)
    requires per >= 1 && Numbered(shots)
    ensures PackageLines(packages) == LinesOf(shots) && Cover(packages, per, shots, |shots|)
  {
    packages := [];
    var at := 0;
    while at < |shots|
      invariant at <= |shots| && Cover(packages, per, shots, at) && PackageLines(packages) == LinesOf(shots[..at])
      invariant packages != [] && at < |shots| ==> packages[|packages| - 1].shots == per
    {
      var next := NextPackage(shots, at, per, |packages|);
      CoverMore(packages, per, shots, at, next);
      packages, at := packages + [next], at + next.shots;
    }
    assert shots[..|shots|] == shots;
  }

  /** `split_storyboard_packages`: without any header, the whole text is one package. */
  method SplitPackages(lines: seq<string>, shotsPerPackage: nat) returns (packages: seq<Package>)
    ensures (forall i | 0 <= i < |lines| :: !Header()(lines[i])) ==> packages == [Package(0, Whole, 1, lines)]
    ensures (exists i :: 0 <= i < |lines| && Header()(lines[i])) ==>
              && PackageLines(packages) == FromFirstHeader(lines, Header())
              && exists shots :: IsSplit(lines, shots) && Cover(packages, if shotsPerPackage < 1 then 1 else shotsPerPackage, shots, |shots|)
  {
    var per := if shotsPerPackage < 1 then 1 else shotsPerPackage;
    var shots := SplitShots(lines, Header());
    if shots == [] {
      return [Package(0, Whole, 1, lines)];
    }
    packages := Pack(shots, per);
    assert IsSplit(lines, shots);
  }

  function Header(): string -> bool {
    IsUnitHeader
  }

  /** The lines from the first header on, as shots. */
  ghost predicate IsSplit(lines: seq<string>, shots: seq<Shot>) {
    AreShots(shots, Header()) && LinesOf(shots) == FromFirstHeader(lines, Header())
  }
}
