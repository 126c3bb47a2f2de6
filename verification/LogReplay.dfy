/** What a task log means: replay, the last-line reading, and compaction. */
module LogReplay {
  import opened Tasks

  /** One line of the log. `Unreadable` is a line the reader cannot decode as text:
      it ends every scan of the file. */
  datatype Line = Blank | Unparsable | Unreadable | Json(rec: Record)

  predicate AllReadable(lines: seq<Line>) {
    forall i :: 0 <= i < |lines| ==> lines[i] != Unreadable
  }

  /** The part of the file a scan sees. */
  function Readable(lines: seq<Line>): (r: seq<Line>)
    ensures r <= lines && AllReadable(r)
    ensures r == lines || lines[|r|] == Unreadable
  {
    if lines == [] || lines[0] == Unreadable then [] else [lines[0]] + Readable(lines[1..])
  }

  lemma ReadableStops(lines: seq<Line>)
    ensures |Readable(lines)| < |lines| ==> lines[|Readable(lines)|] == Unreadable
    ensures forall i :: 0 <= i < |Readable(lines)| ==> lines[i] == Readable(lines)[i] && lines[i] != Unreadable
  {}

  // ---------------------------------------------------------------- replay

  function ApplyLine(m: map<Id, Record>, line: Line): map<Id, Record> {
    match line
    case Json(r) => if r.deletedAt.Some? then m - {r.id} else m[r.id := r]
    case _ => m
  }

  function Fold(lines: seq<Line>): map<Id, Record> {
    if lines == [] then map[] else ApplyLine(Fold(lines[..|lines| - 1]), lines[|lines| - 1])
  }

  /** The live tasks a restart finds. */
  function Replay(lines: seq<Line>): map<Id, Record> {
    Fold(Readable(lines))
  }

  /** Line `i` is the last one that speaks about `id`. */
  ghost predicate IsLast(lines: seq<Line>, id: Id, i: nat) {
    && i < |lines| && lines[i].Json? && lines[i].rec.id == id
    && forall j :: i < j < |lines| && lines[j].Json? ==> lines[j].rec.id != id
  }

  /** Replay finds a task live exactly when the last line about it is not a tombstone,
      and then finds that line's record. */
  lemma {:induction false} FoldIsLastLine(lines: seq<Line>, id: Id, r: Record)
    ensures (id in Fold(lines) && Fold(lines)[id] == r)
       <==> exists i: nat :: IsLast(lines, id, i) && lines[i] == Json(r) && r.deletedAt.None?
  {
    if lines != [] {
      var n := |lines| - 1;
      var init := lines[..n];
      FoldIsLastLine(init, id, r);
      forall i: nat | i < n && !(lines[n].Json? && lines[n].rec.id == id)
        ensures IsLast(lines, id, i) <==> IsLast(init, id, i)
      {
        if IsLast(init, id, i) {
          assert IsLast(lines, id, i);
        }
        if IsLast(lines, id, i) {
          assert forall j :: i < j < |init| && init[j].Json? ==> lines[j] == init[j];
        }
      }
      if lines[n].Json? && lines[n].rec.id == id {
        assert IsLast(lines, id, n);
        assert forall i: nat :: IsLast(lines, id, i) ==> i == n;
      } else {
        assert forall i: nat :: i < n ==> lines[i] == init[i];
        assert !IsLast(lines, id, n);
      }
    }
  }

  /** The dashboard's reading: latest line per id, tombstones included. */
  function LatestPerId(lines: seq<Line>): map<Id, Record> {
    if lines == [] then map[]
    else
      var m := LatestPerId(lines[..|lines| - 1]);
      match lines[|lines| - 1]
      case Json(r) => m[r.id := r]
      case _ => m
  }

  lemma {:induction false} ReplayMatchesDashboard(lines: seq<Line>)
    ensures Fold(lines) ==
            map id | id in LatestPerId(lines) && LatestPerId(lines)[id].deletedAt.None?
                   :: LatestPerId(lines)[id]
  {
    if lines != [] {
      ReplayMatchesDashboard(lines[..|lines| - 1]);
    }
  }

  lemma {:induction false} FoldKeys(lines: seq<Line>)
    ensures forall id :: id in Fold(lines) ==> Fold(lines)[id].id == id && Fold(lines)[id].deletedAt.None?
  {
    if lines != [] {
      FoldKeys(lines[..|lines| - 1]);
    }
  }

  lemma {:induction false} FoldAppend(lines: seq<Line>, line: Line)
    ensures Fold(lines + [line]) == ApplyLine(Fold(lines), line)
  {
    assert (lines + [line])[..|lines|] == lines;
  }

  /** Replay of a suffix depends only on the map the prefix left. */
  lemma {:induction false} FoldConcat(a: seq<Line>, b: seq<Line>, suffix: seq<Line>)
    requires Fold(a) == Fold(b)
    ensures Fold(a + suffix) == Fold(b + suffix)
  {
    if suffix == [] {
      assert a + suffix == a && b + suffix == b;
    } else {
      var init := suffix[..|suffix| - 1];
      FoldConcat(a, b, init);
      assert (a + suffix)[..|a + suffix| - 1] == a + init;
      assert (b + suffix)[..|b + suffix| - 1] == b + init;
    }
  }

  lemma {:induction false} ReadableAppend(lines: seq<Line>, line: Line)
    ensures AllReadable(lines) && line != Unreadable ==> Readable(lines + [line]) == lines + [line]
    ensures !AllReadable(lines) ==> Readable(lines + [line]) == Readable(lines)
  {
    if lines == [] {
      assert lines + [line] == [line];
    } else {
      assert (lines + [line])[1..] == lines[1..] + [line];
      ReadableAppend(lines[1..], line);
      if lines[0] != Unreadable && !AllReadable(lines) {
        var i :| 0 <= i < |lines| && lines[i] == Unreadable;
        assert lines[1..][i - 1] == Unreadable;
      }
    }
  }

  lemma ReadableAll(lines: seq<Line>)
    requires AllReadable(lines)
    ensures Readable(lines) == lines
  {}

  /** An appended record reaches the next restart exactly when every earlier line can be
      read, unless it says nothing new. */
  lemma AppendSurvivesRestart(lines: seq<Line>, r: Record)
    ensures Replay(lines + [Json(r)]) == ApplyLine(Replay(lines), Json(r))
       <==> AllReadable(lines) || ApplyLine(Replay(lines), Json(r)) == Replay(lines)
  {
    ReadableAppend(lines, Json(r));
    if AllReadable(lines) {
      ReadableAll(lines);
      FoldAppend(lines, Json(r));
    }
  }

  /** Where in the log the parsable lines, the live lines and the tombstones are. */
  function ParsableLines(lines: seq<Line>): set<nat> {
    set i | 0 <= i < |lines| && lines[i].Json?
  }

  function LiveLines(lines: seq<Line>): set<nat> {
    set i | 0 <= i < |lines| && lines[i].Json? && lines[i].rec.deletedAt.None?
  }

  function TombstoneLines(lines: seq<Line>): set<nat> {
    set i | 0 <= i < |lines| && lines[i].Json? && lines[i].rec.deletedAt.Some?
  }

  lemma LinesAppend(lines: seq<Line>, line: Line)
    ensures |ParsableLines(lines + [line])| == |ParsableLines(lines)| + if line.Json? then 1 else 0
    ensures |LiveLines(lines + [line])| == |LiveLines(lines)| + if line.Json? && line.rec.deletedAt.None? then 1 else 0
    ensures |TombstoneLines(lines + [line])| == |TombstoneLines(lines)| + if line.Json? && line.rec.deletedAt.Some? then 1 else 0
  {
    LinesGrow(lines, line);
  }

  lemma LinesGrow(lines: seq<Line>, line: Line)
    ensures ParsableLines(lines + [line]) == if line.Json? then ParsableLines(lines) + {|lines|} else ParsableLines(lines)
    ensures LiveLines(lines + [line]) == if line.Json? && line.rec.deletedAt.None? then LiveLines(lines) + {|lines|} else LiveLines(lines)
    ensures TombstoneLines(lines + [line]) == if line.Json? && line.rec.deletedAt.Some? then TombstoneLines(lines) + {|lines|} else TombstoneLines(lines)
  {}

  // ------------------------------------------------------------ compaction

  function Records(m: map<Id, Task>): map<Id, Record> {
    map id | id in m :: m[id].rec
  }

  /** One step of the compaction scan: a live line replaces an earlier one only when its
      parse stamp is strictly newer. */
  function CompactLine(m: map<Id, Task>, line: Line, stamp: Time): map<Id, Task> {
    match line
    case Json(r) =>
      if r.deletedAt.Some? then m - {r.id}
      else if r.id in m && stamp <= m[r.id].updatedAt then m
      else m[r.id := Parse(r, stamp)]
    case _ => m
  }

  /** The map compaction keeps, when line `i` is parsed at `stamps[i]`. */
  function CompactFold(lines: seq<Line>, stamps: seq<Time>): map<Id, Task>
    requires |lines| <= |stamps|
  {
    if lines == [] then map[]
    else CompactLine(CompactFold(lines[..|lines| - 1], stamps), lines[|lines| - 1], stamps[|lines| - 1])
  }

  ghost predicate StrictlyIncreasing(stamps: seq<Time>) {
    forall i, j :: 0 <= i < j < |stamps| ==> stamps[i] < stamps[j]
  }

  /** A live line of `id` with no tombstone of `id` after it. */
  ghost predicate Contends(lines: seq<Line>, id: Id, i: nat) {
    && i < |lines| && lines[i].Json? && lines[i].rec.id == id && lines[i].rec.deletedAt.None?
    && forall j :: i < j < |lines| && lines[j].Json? && lines[j].rec.id == id ==> lines[j].rec.deletedAt.None?
  }

  /** The contender with the largest stamp, the earliest of these on a tie. */
  ghost predicate Wins(lines: seq<Line>, stamps: seq<Time>, id: Id, w: nat)
    requires |lines| <= |stamps|
  {
    && Contends(lines, id, w)
    && forall i: nat :: Contends(lines, id, i) ==> stamps[i] <= stamps[w] && (i < w ==> stamps[i] < stamps[w])
  }

  lemma ContendsInit(lines: seq<Line>, id: Id, i: nat)
    requires lines != [] && i < |lines| - 1
    ensures Contends(lines, id, i) <==>
            Contends(lines[..|lines| - 1], id, i) && !(lines[|lines| - 1].Json? && lines[|lines| - 1].rec.id == id && lines[|lines| - 1].rec.deletedAt.Some?)
  {
    var init := lines[..|lines| - 1];
    assert forall j :: 0 <= j < |init| ==> init[j] == lines[j];
  }

  /** Of each id compaction keeps the winning line's record, and nothing if no line contends. */
  ghost predicate WinnerKept(lines: seq<Line>, stamps: seq<Time>, id: Id)
    requires |lines| <= |stamps|
  {
    var m := CompactFold(lines, stamps);
    && (id in m <==> id in Fold(lines))
    && (id in m <==> exists i: nat :: Contends(lines, id, i))
    && (id in m ==> exists w: nat :: Wins(lines, stamps, id, w) && m[id] == Parse(lines[w].rec, stamps[w]))
  }

  /** The last line is a save of `id`: it wins unless an earlier contender has its stamp. */
  lemma WinnerAfterSave(lines: seq<Line>, stamps: seq<Time>, id: Id)
    requires lines != [] && |lines| <= |stamps| && WinnerKept(lines[..|lines| - 1], stamps, id)
    requires lines[|lines| - 1].Json? && lines[|lines| - 1].rec.id == id && lines[|lines| - 1].rec.deletedAt.None?
    ensures WinnerKept(lines, stamps, id)
  {
    var n := |lines| - 1;
    var init := lines[..n];
    forall i: nat | i < n ensures Contends(lines, id, i) <==> Contends(init, id, i) {
      ContendsInit(lines, id, i);
    }
    assert Contends(lines, id, n);
    if id in CompactFold(init, stamps) {
      var w: nat :| Wins(init, stamps, id, w) && CompactFold(init, stamps)[id] == Parse(init[w].rec, stamps[w]);
      assert init[w] == lines[w] && Contends(lines, id, w);
      if stamps[n] <= stamps[w] {
        assert Wins(lines, stamps, id, w);
      } else {
        assert Wins(lines, stamps, id, n);
      }
    } else {
      assert Wins(lines, stamps, id, n);
    }
  }

  /** The last line deletes `id`: no line contends any more. */
  lemma NoWinnerAfterDelete(lines: seq<Line>, stamps: seq<Time>, id: Id)
    requires lines != [] && |lines| <= |stamps|
    requires lines[|lines| - 1].Json? && lines[|lines| - 1].rec.id == id && lines[|lines| - 1].rec.deletedAt.Some?
    ensures WinnerKept(lines, stamps, id)
  {
    assert forall i: nat :: !Contends(lines, id, i);
  }

  /** The last line is not about `id`: nothing changes. */
  lemma WinnerAfterOther(lines: seq<Line>, stamps: seq<Time>, id: Id)
    requires lines != [] && |lines| <= |stamps| && WinnerKept(lines[..|lines| - 1], stamps, id)
    requires !(lines[|lines| - 1].Json? && lines[|lines| - 1].rec.id == id)
    ensures WinnerKept(lines, stamps, id)
  {
    var n := |lines| - 1;
    var init := lines[..n];
    forall i: nat ensures Contends(lines, id, i) <==> Contends(init, id, i) {
      if i < n { ContendsInit(lines, id, i); }
    }
    if id in CompactFold(init, stamps) {
      var w: nat :| Wins(init, stamps, id, w) && CompactFold(init, stamps)[id] == Parse(init[w].rec, stamps[w]);
      assert init[w] == lines[w];
      assert Wins(lines, stamps, id, w);
    }
  }

  /** Compaction keeps the same ids as replay whatever the stamps are, and for each id
      the record of the winning line. */
  lemma {:induction false} CompactPicksWinner(lines: seq<Line>, stamps: seq<Time>, id: Id)
    requires |lines| <= |stamps|
    ensures WinnerKept(lines, stamps, id)
  {
    if lines != [] {
      var n := |lines| - 1;
      CompactPicksWinner(lines[..n], stamps, id);
      if !(lines[n].Json? && lines[n].rec.id == id) {
        WinnerAfterOther(lines, stamps, id);
      } else if lines[n].rec.deletedAt.None? {
        WinnerAfterSave(lines, stamps, id);
      } else {
        NoWinnerAfterDelete(lines, stamps, id);
      }
    }
  }

  /** With no assumption on the stamps, compaction still keeps exactly the live ids. */
  lemma CompactKeepsLiveIds(lines: seq<Line>, stamps: seq<Time>)
    requires |lines| <= |stamps|
    ensures CompactFold(lines, stamps).Keys == Fold(lines).Keys
  {
    forall id ensures id in CompactFold(lines, stamps) <==> id in Fold(lines) {
      CompactPicksWinner(lines, stamps, id);
    }
  }

  lemma LastContends(lines: seq<Line>, id: Id, last: nat)
    requires IsLast(lines, id, last) && lines[last].rec.deletedAt.None?
    ensures Contends(lines, id, last) && forall i: nat :: Contends(lines, id, i) ==> i <= last
  {}

  /** Contender `j` comes before contender `i` in compaction's eyes. */
  predicate Beats(stamps: seq<Time>, j: nat, i: nat)
    requires i < |stamps| && j < |stamps|
  {
    stamps[j] > stamps[i] || (stamps[j] == stamps[i] && j < i)
  }

  /** Every line contending for `id` with another record than `r` is beaten by one with `r`. */
  ghost predicate Prevails(lines: seq<Line>, stamps: seq<Time>, id: Id, r: Record)
    requires |lines| <= |stamps|
  {
    forall i: nat :: Contends(lines, id, i) && lines[i].rec != r ==>
      exists j: nat :: Contends(lines, id, j) && lines[j].rec == r && Beats(stamps, j, i)
  }

  lemma WinnerPrevails(lines: seq<Line>, stamps: seq<Time>, id: Id, w: nat, r: Record)
    requires |lines| <= |stamps| && Wins(lines, stamps, id, w)
    ensures lines[w].rec == r <==> Prevails(lines, stamps, id, r)
  {
    if lines[w].rec == r {
      forall i: nat | Contends(lines, id, i) && lines[i].rec != r
        ensures exists j: nat :: Contends(lines, id, j) && lines[j].rec == r && Beats(stamps, j, i)
      {
        assert Beats(stamps, w, i);
      }
    }
  }

  /** Exactly when compaction keeps what replay gives for `id`. */
  lemma CompactKeepsLatestIff(lines: seq<Line>, stamps: seq<Time>, id: Id)
    requires |lines| <= |stamps| && id in Fold(lines)
    ensures id in CompactFold(lines, stamps)
    ensures CompactFold(lines, stamps)[id].rec == Fold(lines)[id] <==> Prevails(lines, stamps, id, Fold(lines)[id])
  {
    CompactPicksWinner(lines, stamps, id);
    var w: nat :| Wins(lines, stamps, id, w) && CompactFold(lines, stamps)[id] == Parse(lines[w].rec, stamps[w]);
    WinnerPrevails(lines, stamps, id, w, Fold(lines)[id]);
  }

  /** No save is rolled back. */
  ghost predicate KeepsLatest(lines: seq<Line>, stamps: seq<Time>)
    requires |lines| <= |stamps|
  {
    forall id :: id in Fold(lines) ==> Prevails(lines, stamps, id, Fold(lines)[id])
  }

  /** Exactly when the compacted map is the replayed one. */
  lemma CompactIsReplayIff(lines: seq<Line>, stamps: seq<Time>)
    requires |lines| <= |stamps|
    ensures Records(CompactFold(lines, stamps)) == Fold(lines) <==> KeepsLatest(lines, stamps)
  {
    var c := CompactFold(lines, stamps);
    CompactKeepsLiveIds(lines, stamps);
    forall id | id in Fold(lines) ensures id in c && (Records(c)[id] == Fold(lines)[id] <==> Prevails(lines, stamps, id, Fold(lines)[id])) {
      CompactKeepsLatestIff(lines, stamps, id);
    }
    if KeepsLatest(lines, stamps) {
      assert Records(c).Keys == Fold(lines).Keys;
    }
  }

  /** Strictly increasing parse stamps roll nothing back. */
  lemma StrictStampsKeepLatest(lines: seq<Line>, stamps: seq<Time>)
    requires |lines| <= |stamps| && StrictlyIncreasing(stamps)
    ensures KeepsLatest(lines, stamps)
  {
    forall id | id in Fold(lines) ensures Prevails(lines, stamps, id, Fold(lines)[id]) {
      FoldIsLastLine(lines, id, Fold(lines)[id]);
      var last: nat :| IsLast(lines, id, last) && lines[last] == Json(Fold(lines)[id]);
      FoldKeys(lines);
      LastContends(lines, id, last);
      forall i: nat | Contends(lines, id, i) && lines[i].rec != Fold(lines)[id] ensures Beats(stamps, last, i) {}
    }
  }

  /** Two lines parsed at the same instant: compaction rolls the task back to the older one. */
  lemma TiedStampsRollBack(older: Record, newer: Record, t: Time)
    requires older.id == newer.id && older != newer
    requires older.deletedAt.None? && newer.deletedAt.None?
    ensures var lines := [Json(older), Json(newer)];
            Fold(lines) == map[newer.id := newer] && Records(CompactFold(lines, [t, t])) == map[older.id := older]
  {
    var lines := [Json(older), Json(newer)];
    assert lines[..1] == [Json(older)] && lines[..1][..0] == [];
    assert CompactFold(lines[..1], [t, t]) == map[older.id := Parse(older, t)];
    assert Fold(lines[..1]) == map[older.id := older];
  }

  /** The same with a line of another task after them. */
  lemma TiedStampsRollBackBeside(older: Record, newer: Record, other: Record, t: Time)
    requires older.id == newer.id && older.id != other.id
    requires older.deletedAt.None? && newer.deletedAt.None? && other.deletedAt.None?
    ensures var lines := [Json(older), Json(newer), Json(other)];
            Records(CompactFold(lines, [t, t, t])) == map[older.id := older, other.id := other] && Readable(lines) == lines
  {
    var lines := [Json(older), Json(newer), Json(other)];
    ReadableAll(lines);
    assert lines[..2] == [Json(older), Json(newer)] && lines[..2][..1] == [Json(older)] && lines[..2][..1][..0] == [];
    assert CompactFold(lines[..2][..1], [t, t, t]) == map[older.id := Parse(older, t)];
    assert CompactFold(lines[..2], [t, t, t]) == map[older.id := Parse(older, t)];
    assert CompactFold(lines, [t, t, t]) == map[older.id := Parse(older, t), other.id := Parse(other, t)];
  }

  // ------------------------------------------------- the rewritten file

  /** `order` lists every key of `m` once. */
  ghost predicate Enumerates<V>(order: seq<Id>, m: map<Id, V>) {
    && (forall i :: 0 <= i < |order| ==> order[i] in m)
    && (forall i, j :: 0 <= i < j < |order| ==> order[i] != order[j])
    && (forall id :: id in m ==> id in order)
  }

  /** One line per id of `order`: serializing a task drops its stamps. */
  function WriteOut(order: seq<Id>, m: map<Id, Record>): (lines: seq<Line>)
    requires forall i :: 0 <= i < |order| ==> order[i] in m
    ensures |lines| == |order|
    ensures forall i :: 0 <= i < |order| ==> lines[i] == Json(m[order[i]])
  {
    seq(|order|, i requires 0 <= i < |order| => Json(m[order[i]]))
  }

  ghost predicate KeyedAndLive(m: map<Id, Record>) {
    forall id :: id in m ==> m[id].id == id && m[id].deletedAt.None?
  }

  lemma ApplyKeyed(m: map<Id, Record>, r: Record)
    requires KeyedAndLive(m)
    ensures KeyedAndLive(ApplyLine(m, Json(r)))
  {}

  lemma EnumeratesInit(order: seq<Id>, m: map<Id, Record>)
    requires Enumerates(order, m) && order != []
    ensures var n := |order| - 1;
            && Enumerates(order[..n], m - {order[n]})
            && WriteOut(order, m) == WriteOut(order[..n], m - {order[n]}) + [Json(m[order[n]])]
            && m == (m - {order[n]})[order[n] := m[order[n]]]
            && |m| == |m - {order[n]}| + 1
  {
    var n := |order| - 1;
    forall k | k in m - {order[n]} ensures k in order[..n] {
      var i :| 0 <= i < |order| && order[i] == k;
      assert order[..n][i] == k;
    }
    assert m.Keys == (m - {order[n]}).Keys + {order[n]};
  }

  lemma {:induction false} ReplayWriteOut(order: seq<Id>, m: map<Id, Record>)
    requires Enumerates(order, m) && KeyedAndLive(m)
    ensures Fold(WriteOut(order, m)) == m
    ensures |order| == |m|
  {
    if order == [] {
      assert m == map[];
    } else {
      var n := |order| - 1;
      EnumeratesInit(order, m);
      var rest := m - {order[n]};
      var lines := WriteOut(order[..n], rest);
      ReplayWriteOut(order[..n], rest);
      FoldAppend(lines, Json(m[order[n]]));
      assert Fold(WriteOut(order, m)) == rest[order[n] := m[order[n]]];
    }
  }

  /** Every line written out is a live one. */
  lemma {:induction false} WriteOutCounts(order: seq<Id>, m: map<Id, Record>)
    requires Enumerates(order, m) && KeyedAndLive(m)
    ensures |LiveLines(WriteOut(order, m))| == |order| && TombstoneLines(WriteOut(order, m)) == {}
  {
    if order != [] {
      var n := |order| - 1;
      EnumeratesInit(order, m);
      var rest := m - {order[n]};
      WriteOutCounts(order[..n], rest);
      LinesAppend(WriteOut(order[..n], rest), Json(m[order[n]]));
    }
  }

  lemma CompactIsKeyed(lines: seq<Line>, stamps: seq<Time>)
    requires |lines| <= |stamps|
    ensures KeyedAndLive(Records(CompactFold(lines, stamps)))
  {
    var c := CompactFold(lines, stamps);
    forall id | id in c ensures c[id].rec.id == id && c[id].rec.deletedAt.None? {
      CompactPicksWinner(lines, stamps, id);
    }
  }

  /** The file compaction leaves behind. */
  function Compacted(lines: seq<Line>, stamps: seq<Time>, order: seq<Id>): seq<Line>
    requires |Readable(lines)| <= |stamps|
    requires forall i :: 0 <= i < |order| ==> order[i] in CompactFold(Readable(lines), stamps)
  {
    WriteOut(order, Records(CompactFold(Readable(lines), stamps)))
  }

  /** What a scan sees is determined by where it stops. */
  lemma ReadableUnique(lines: seq<Line>, r: seq<Line>)
    requires r <= lines && AllReadable(r) && (r == lines || lines[|r|] == Unreadable)
    ensures Readable(lines) == r
  {
    var seen := Readable(lines);
    assert forall i :: 0 <= i < |r| ==> lines[i] == r[i] && lines[i] != Unreadable;
    assert forall i :: 0 <= i < |seen| ==> lines[i] == seen[i] && lines[i] != Unreadable;
    assert |seen| == |r|;
  }

  lemma ReadableConcat(a: seq<Line>, b: seq<Line>)
    ensures Readable(a + b) == if AllReadable(a) then a + Readable(b) else Readable(a)
  {
    if AllReadable(a) {
      var seen := Readable(b);
      assert b == seen + b[|seen|..];
      assert a + b == (a + seen) + b[|seen|..];
      ReadableUnique(a + b, a + seen);
    } else {
      ReadableUnique(a + b, Readable(a));
    }
  }

  /** Main result: when no save is rolled back, and whatever order the lines are written
      in, a restart on the compacted file followed by any suffix finds what a restart on
      the original followed by that suffix finds, exactly if the original has no unreadable
      line or the suffix says nothing new. */
  lemma CompactionInvisible(lines: seq<Line>, stamps: seq<Time>, order: seq<Id>, suffix: seq<Line>)
    requires |Readable(lines)| <= |stamps| && KeepsLatest(Readable(lines), stamps)
    requires Enumerates(order, CompactFold(Readable(lines), stamps))
    ensures Replay(Compacted(lines, stamps, order) + suffix) == Fold(Readable(lines) + Readable(suffix))
    ensures Replay(Compacted(lines, stamps, order) + suffix) == Replay(lines + suffix)
       <==> AllReadable(lines) || Fold(Readable(lines) + Readable(suffix)) == Replay(lines)
  {
    var kept := Records(CompactFold(Readable(lines), stamps));
    CompactIsKeyed(Readable(lines), stamps);
    ReplayWriteOut(order, kept);
    CompactIsReplayIff(Readable(lines), stamps);
    FoldConcat(Compacted(lines, stamps, order), Readable(lines), Readable(suffix));
    ReadableConcat(Compacted(lines, stamps, order), suffix);
    ReadableConcat(lines, suffix);
    if AllReadable(lines) { ReadableAll(lines); }
  }

  /** The condition on the stamps is needed: without it the compacted file alone replays
      to something else. */
  lemma CompactionInvisibleIff(lines: seq<Line>, stamps: seq<Time>, order: seq<Id>)
    requires |Readable(lines)| <= |stamps|
    requires Enumerates(order, CompactFold(Readable(lines), stamps))
    ensures Replay(Compacted(lines, stamps, order)) == Replay(lines) <==> KeepsLatest(Readable(lines), stamps)
  {
    var kept := Records(CompactFold(Readable(lines), stamps));
    CompactIsKeyed(Readable(lines), stamps);
    ReplayWriteOut(order, kept);
    ReadableAll(Compacted(lines, stamps, order));
    CompactIsReplayIff(Readable(lines), stamps);
  }

  /** A crash before the rename leaves the old file, one after it the new file: a restart
      finds the same live ids either way, for any stamps. */
  lemma CompactionCrashSafe(lines: seq<Line>, stamps: seq<Time>, order: seq<Id>, renamed: bool)
    requires |Readable(lines)| <= |stamps|
    requires Enumerates(order, CompactFold(Readable(lines), stamps))
    ensures Replay(if renamed then Compacted(lines, stamps, order) else lines).Keys == Replay(lines).Keys
  {
    if renamed {
      CompactedReplays(lines, stamps, order);
      CompactKeepsLiveIds(Readable(lines), stamps);
    }
  }

  lemma CompactedReplays(lines: seq<Line>, stamps: seq<Time>, order: seq<Id>)
    requires |Readable(lines)| <= |stamps|
    requires Enumerates(order, CompactFold(Readable(lines), stamps))
    ensures Replay(Compacted(lines, stamps, order)) == Records(CompactFold(Readable(lines), stamps))
  {
    var kept := Records(CompactFold(Readable(lines), stamps));
    CompactIsKeyed(Readable(lines), stamps);
    ReplayWriteOut(order, kept);
    ReadableAll(WriteOut(order, kept));
  }
}
