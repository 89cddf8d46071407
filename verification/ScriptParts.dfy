/** Cutting a script at its headers. */
module ScriptParts {
  import opened Outcomes
  import opened ScriptLines

  /** A header and the lines up to the next one; the first part has no header. */
  datatype Part = Part(head: Option<Line>, body: seq<Line>) {
    function Whole(): seq<Line> {
      (if head.Some? then [head.value] else []) + body
    }

    function With(line: Line): Part {
      Part(head, body + [line])
    }
  }

  function Parts(lines: seq<Line>, opens: Line -> bool): (r: seq<Part>)
    ensures r != []
  {
    if lines == [] then [Part(None, [])]
    else
      var before, last := Parts(lines[..|lines| - 1], opens), lines[|lines| - 1];
      if opens(last) then before + [Part(Some(last), [])] else before[|before| - 1 := before[|before| - 1].With(last)]
  }

  function Joined(ps: seq<Part>): seq<Line> {
    if ps == [] then [] else Joined(ps[..|ps| - 1]) + ps[|ps| - 1].Whole()
  }

  /** The parts make up the lines; every part but the first begins with a header, and there is no other header. */
  ghost predicate Partition(ps: seq<Part>, lines: seq<Line>, opens: Line -> bool) {
    && ps != [] && Joined(ps) == lines && ps[0].head.None?
    && forall i | 0 <= i < |ps| :: Begins(ps[i], i, opens) && forall l | l in ps[i].body :: !opens(l)
  }

  ghost predicate Begins(p: Part, i: nat, opens: Line -> bool) {
    i > 0 ==> p.head.Some? && opens(p.head.value)
  }

  lemma PartsMore(lines: seq<Line>, line: Line, opens: Line -> bool)
    ensures var ps := Parts(lines, opens);
            Parts(lines + [line], opens) ==
              if opens(line) then ps + [Part(Some(line), [])] else ps[|ps| - 1 := ps[|ps| - 1].With(line)]
  {
    assert (lines + [line])[..|lines|] == lines;
  }

  lemma JoinedMore(ps: seq<Part>, p: Part)
    ensures Joined(ps + [p]) == Joined(ps) + p.Whole()
  {
    assert (ps + [p])[..|ps|] == ps;
  }

  lemma JoinedLonger(ps: seq<Part>, line: Line)
    requires ps != []
    ensures Joined(ps[|ps| - 1 := ps[|ps| - 1].With(line)]) == Joined(ps) + [line]
  {
    var n := |ps| - 1;
    var more := ps[n := ps[n].With(line)];
    assert more[..n] == ps[..n];
    assert ps[n].With(line).Whole() == ps[n].Whole() + [line];
    assert Joined(ps[..n]) + (ps[n].Whole() + [line]) == Joined(ps[..n]) + ps[n].Whole() + [line];
  }

  /** Every script has such parts. */
  lemma {:induction false} PartsAre(lines: seq<Line>, opens: Line -> bool)
    ensures Partition(Parts(lines, opens), lines, opens)
  {
    if lines == [] {
      assert Joined([Part(None, [])]) == Joined([]) + [];
    } else {
      var front, last := lines[..|lines| - 1], lines[|lines| - 1];
      var before := Parts(front, opens);
      PartsAre(front, opens);
      assert lines == front + [last];
      if opens(last) {
        JoinedMore(before, Part(Some(last), []));
      } else {
        JoinedLonger(before, last);
      }
    }
  }

  /** A line that ends the last part, or is its header, taken off. */
  lemma PartitionLess(ps: seq<Part>, lines: seq<Line>, opens: Line -> bool) returns (before: seq<Part>)
    requires Partition(ps, lines, opens) && lines != []
    ensures var front, last := lines[..|lines| - 1], lines[|lines| - 1];
            && Partition(before, front, opens)
            && ps == if opens(last) then before + [Part(Some(last), [])] else before[|before| - 1 := before[|before| - 1].With(last)]
  {
    var n := |ps| - 1;
    var p, last := ps[n], lines[|lines| - 1];
    assert Begins(p, n, opens);
    if p.body == [] {
      before := ps[..n];
      assert Joined(ps) == Joined(before) + p.Whole();
      assert n == 0 ==> before == [];
      assert p.Whole() == [p.head.value];
      assert ps == before + [p];
      forall i | 0 <= i < |before| ensures Begins(before[i], i, opens) && forall l | l in before[i].body :: !opens(l) {
        assert before[i] == ps[i] && Begins(ps[i], i, opens);
      }
    } else {
      var body := p.body[..|p.body| - 1];
      assert p.body == body + [p.body[|p.body| - 1]] && p.body[|p.body| - 1] in p.body;
      before := ps[n := Part(p.head, body)];
      assert before[..n] == ps[..n];
      JoinedLonger(before, p.body[|p.body| - 1]);
      assert before[n := before[n].With(p.body[|p.body| - 1])] == ps;
      forall i | 0 <= i < |before| ensures Begins(before[i], i, opens) && forall l | l in before[i].body :: !opens(l) {
        assert Begins(ps[i], i, opens) && forall l | l in before[i].body :: l in ps[i].body;
      }
    }
  }

  /** And no others. */
  lemma {:induction false} PartsUnique(ps: seq<Part>, lines: seq<Line>, opens: Line -> bool)
    requires Partition(ps, lines, opens)
    ensures ps == Parts(lines, opens)
    decreases |lines|
  {
    if lines == [] {
      var n := |ps| - 1;
      assert Begins(ps[n], n, opens);
      assert |Joined(ps)| == |Joined(ps[..n])| + |ps[n].Whole()|;
    } else {
      var before := PartitionLess(ps, lines, opens);
      PartsUnique(before, lines[..|lines| - 1], opens);
    }
  }
}
