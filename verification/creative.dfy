/** The VFX supervisor's asset board (src/client/src/pages/CreativeDashboard.tsx). */
module Creative {
  import opened Common
  import Numerals

  datatype ShotStatus = Todo | InProgress | ReadyForReview | Complete
  datatype Complexity = Low | Medium | High

  datatype Shot = Shot(id: int, name: string, status: ShotStatus, complexity: Complexity)

  /** `initialVFXShots`: one shot in each stage. */
  const InitialShots: seq<Shot> := [
    Shot(1, "Shot 4A: Starship Landing", Todo, High),
    Shot(2, "Shot 12C: CGI Crowds", InProgress, Medium),
    Shot(3, "Shot 33B: Green Screen BG Replace", ReadyForReview, Low),
    Shot(4, "Shot 55D: Final Explosion FX", Complete, High)
  ]

  /** `shotsByStatus`: the shots in one stage, in board order. */
  function ShotsByStatus(shots: seq<Shot>, status: ShotStatus): (r: seq<Shot>)
    ensures |r| <= |shots|
    ensures forall k :: 0 <= k < |r| ==> r[k].status == status
    decreases |shots|
  {
    if |shots| == 0 then []
    else
      assert shots == [shots[0]] + shots[1..];
      (if shots[0].status == status then [shots[0]] else []) + ShotsByStatus(shots[1..], status)
  }

  /** A column of the board: its title, its header colour and the shots it holds. */
  datatype Column = Column(title: string, tone: Tone, shots: seq<Shot>)

  /** The stage shown in column `i`, left to right. */
  function Stage(i: nat): ShotStatus
    requires i < 4
  {
    [Todo, InProgress, ReadyForReview, Complete][i]
  }

  /** The four columns, left to right. */
  function Board(shots: seq<Shot>): (b: seq<Column>)
    ensures |b| == 4
    ensures forall i, k :: 0 <= i < 4 && 0 <= k < |b[i].shots| ==> b[i].shots[k].status == Stage(i)
  {
    [ Column("NLP Tagged Shots (To Do)", Gray, ShotsByStatus(shots, Todo)),
      Column("Work In Progress", Yellow, ShotsByStatus(shots, InProgress)),
      Column("Ready for Review (Director)", Blue, ShotsByStatus(shots, ReadyForReview)),
      Column("Final Approved", Green, ShotsByStatus(shots, Complete)) ]
  }

  /** The column header: `{title} ({shots.length})`. */
  function Header(c: Column): (h: string)
    ensures |h| > |c.title| + 3
    ensures h[..|c.title|] == c.title
  {
    c.title + " (" + Numerals.NatString(|c.shots|) + ")"
  }

  /** "No assets in this stage." is shown exactly when the column's header counts zero shots. */
  function ShowsPlaceholder(c: Column): (b: bool)
    ensures var h := Header(c);
      b <==> Numerals.ParseInt(h[|c.title| + 2..|h| - 1]) == Some(0)
  {
    HeaderShowsCount(c);
    |c.shots| == 0
  }

  /** The complexity badge: red for high, yellow for medium, green otherwise. */
  function BadgeTone(c: Complexity): (t: Tone)
    ensures t == Red <==> c.High?
    ensures t == Yellow <==> c.Medium?
    ensures t == Green <==> c.Low?
  {
    if c == High then Red else if c == Medium then Yellow else Green
  }

  /** The sum of the four column sizes. */
  function BoardTotal(b: seq<Column>): nat
    requires |b| == 4
  {
    |b[0].shots| + |b[1].shots| + |b[2].shots| + |b[3].shots|
  }

  lemma ByStatusCons(h: Shot, t: seq<Shot>, status: ShotStatus)
    ensures ShotsByStatus([h] + t, status) == (if h.status == status then [h] else []) + ShotsByStatus(t, status)
  {
    assert ([h] + t)[0] == h && ([h] + t)[1..] == t;
  }

  /** A shot is in a stage's column exactly when it is in the list with that status. */
  lemma {:induction false} ColumnHoldsStage(shots: seq<Shot>, status: ShotStatus, x: Shot)
    ensures x in ShotsByStatus(shots, status) <==> x in shots && x.status == status
    decreases |shots|
  {
    if |shots| > 0 {
      ColumnHoldsStage(shots[1..], status, x);
      ByStatusCons(shots[0], shots[1..], status);
      assert shots == [shots[0]] + shots[1..];
    }
  }

  /** The shots of the four stages, taken together. */
  function StageSum(shots: seq<Shot>): multiset<Shot> {
    multiset(ShotsByStatus(shots, Todo)) + multiset(ShotsByStatus(shots, InProgress))
      + multiset(ShotsByStatus(shots, ReadyForReview)) + multiset(ShotsByStatus(shots, Complete))
  }

  /** A stage's column holds each shot of that stage as often as the list does, and no other shot. */
  lemma {:induction false} ByStatusCount(shots: seq<Shot>, status: ShotStatus, y: Shot)
    ensures multiset(ShotsByStatus(shots, status))[y] == if y.status == status then multiset(shots)[y] else 0
    decreases |shots|
  {
    if |shots| > 0 {
      ByStatusCount(shots[1..], status, y);
      assert shots == [shots[0]] + shots[1..];
    }
  }

  /** Each shot has exactly one of the four stages. */
  lemma StagesPartition(shots: seq<Shot>)
    ensures StageSum(shots) == multiset(shots)
  {
    forall y
      ensures StageSum(shots)[y] == multiset(shots)[y]
    {
      ByStatusCount(shots, Todo, y);
      ByStatusCount(shots, InProgress, y);
      ByStatusCount(shots, ReadyForReview, y);
      ByStatusCount(shots, Complete, y);
    }
  }

  /** Each shot is in exactly one column: the columns together are a rearrangement of the shot list. */
  lemma BoardPartitions(shots: seq<Shot>)
    ensures var b := Board(shots);
      multiset(b[0].shots) + multiset(b[1].shots) + multiset(b[2].shots) + multiset(b[3].shots) == multiset(shots)
  {
    StagesPartition(shots);
  }

  /** The number in a column's header, read back between its parentheses, is the column's size. */
  lemma HeaderShowsCount(c: Column)
    ensures var h := Header(c);
      h[|c.title|..|c.title| + 2] == " (" && h[|h| - 1] == ')'
      && Numerals.ParseInt(h[|c.title| + 2..|h| - 1]) == Some(|c.shots|)
  {
    var h := Header(c);
    var digits := Numerals.NatString(|c.shots|);
    assert h[|c.title| + 2..|h| - 1] == digits;
    assert Numerals.IntString(|c.shots|) == digits;
    Numerals.ParseIntOfIntString(|c.shots|);
  }

  /** The column headers count every shot once. */
  lemma BoardTotalIsShotCount(shots: seq<Shot>)
    ensures BoardTotal(Board(shots)) == |shots|
  {
    BoardPartitions(shots);
    var b := Board(shots);
    assert |multiset(shots)| == |multiset(b[0].shots)| + |multiset(b[1].shots)| + |multiset(b[2].shots)| + |multiset(b[3].shots)|;
  }

  /** A column of a non-empty list: the head, if it has the stage, then the column of the rest. */
  lemma ColumnStep(shots: seq<Shot>, status: ShotStatus)
    requires |shots| > 0
    ensures var c := ShotsByStatus(shots, status); var t := ShotsByStatus(shots[1..], status);
      var d := if shots[0].status == status then 1 else 0;
      && |c| == d + |t| && (d == 1 ==> c[0] == shots[0])
      && forall i :: d <= i < |c| ==> c[i] == t[i - d]
  {
  }

  /** Where the `i`-th shot of a column sits in the list. */
  lemma {:induction false} ColumnPosition(shots: seq<Shot>, status: ShotStatus, i: nat) returns (p: nat)
    requires i < |ShotsByStatus(shots, status)|
    ensures i <= p < |shots| && shots[p] == ShotsByStatus(shots, status)[i]
    decreases |shots|
  {
    ColumnStep(shots, status);
    if shots[0].status == status && i == 0 {
      p := 0;
    } else {
      var k := if shots[0].status == status then i - 1 else i;
      var p' := ColumnPosition(shots[1..], status, k);
      p := p' + 1;
    }
  }

  /**
   * A column keeps the relative order of its shots: the `i`-th and `j`-th shots of a
   * column, `i < j`, occur in the list in that order.
   */
  lemma {:induction false} ColumnIsOrdered(shots: seq<Shot>, status: ShotStatus, i: nat, j: nat) returns (p: nat, q: nat)
    requires i < j < |ShotsByStatus(shots, status)|
    ensures p < q < |shots|
    ensures shots[p] == ShotsByStatus(shots, status)[i] && shots[q] == ShotsByStatus(shots, status)[j]
    decreases |shots|
  {
    ColumnStep(shots, status);
    if shots[0].status == status {
      if i == 0 {
        var q' := ColumnPosition(shots[1..], status, j - 1);
        p, q := 0, q' + 1;
      } else {
        var p', q' := ColumnIsOrdered(shots[1..], status, i - 1, j - 1);
        p, q := p' + 1, q' + 1;
      }
    } else {
      var p', q' := ColumnIsOrdered(shots[1..], status, i, j);
      p, q := p' + 1, q' + 1;
    }
  }

  /** The starting board has one shot per column, so no column shows the placeholder. */
  lemma InitialBoard()
    ensures var b := Board(InitialShots);
      && b[0].shots == [InitialShots[0]] && b[1].shots == [InitialShots[1]]
      && b[2].shots == [InitialShots[2]] && b[3].shots == [InitialShots[3]]
      && forall i :: 0 <= i < 4 ==> !ShowsPlaceholder(b[i])
  {
    InitialStages();
  }

  /** Each stage holds exactly one of the starting shots. */
  lemma InitialStages()
    ensures ShotsByStatus(InitialShots, Todo) == [InitialShots[0]]
    ensures ShotsByStatus(InitialShots, InProgress) == [InitialShots[1]]
    ensures ShotsByStatus(InitialShots, ReadyForReview) == [InitialShots[2]]
    ensures ShotsByStatus(InitialShots, Complete) == [InitialShots[3]]
  {
    var s := InitialShots;
    assert s[1..] == [s[1], s[2], s[3]] && s[2..] == [s[2], s[3]] && s[3..] == [s[3]];
    assert [s[1], s[2], s[3]][1..] == [s[2], s[3]] && [s[2], s[3]][1..] == [s[3]] && [s[3]][1..] == [];
  }

  /** The starting shots have distinct ids, as React's `key` requires. */
  lemma InitialIdsDistinct()
    ensures forall i, j :: 0 <= i < j < |InitialShots| ==> InitialShots[i].id != InitialShots[j].id
  {
  }
}
