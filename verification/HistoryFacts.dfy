/** Dropping rows by age or count keeps a window sound, and the newest measurement with it. */
module HistoryFacts {
  import opened Basics
  import opened History

  // ----- CPU rows under the operations -----

  lemma {:induction false} CpuRowsAppend(rows: seq<Sample>, more: seq<Sample>)
    ensures CpuRows(rows + more) == CpuRows(rows) + CpuRows(more)
  {
    if |more| == 0 {
      assert rows + more == rows;
    } else {
      var front := more[..|more| - 1];
      CpuRowsAppend(rows, front);
      assert (rows + more)[..|rows| + |more| - 1] == rows + front;
    }
  }

  lemma {:induction false} CpuRowsHaveCpu(rows: seq<Sample>)
    ensures forall i :: 0 <= i < |CpuRows(rows)| ==> CpuRows(rows)[i].cpu.Some?
    ensures |CpuRows(rows)| == CountCpu(rows)
  {
    if |rows| == 0 {
    } else {
      var front, last := rows[..|rows| - 1], rows[|rows| - 1];
      CpuRowsHaveCpu(front);
      CountAppend(front, last);
      assert rows == front + [last];
    }
  }

  lemma {:induction false} CpuRowsIdempotent(rows: seq<Sample>)
    requires forall i :: 0 <= i < |rows| ==> rows[i].cpu.Some?
    ensures CpuRows(rows) == rows
  {
    if |rows| > 0 {
      CpuRowsIdempotent(rows[..|rows| - 1]);
    }
  }

  predicate NoneAfter(rows: seq<Sample>, row: Sample) {
    forall i :: 0 <= i < |rows| ==> NotAfter(rows[i], row)
  }

  lemma NoneAfterFront(rows: seq<Sample>, row: Sample)
    requires |rows| > 0 && !NotAfter(rows[|rows| - 1], row) && NoneAfter(CpuRows(rows), row)
    ensures rows[|rows| - 1].cpu == None && CpuRows(rows) == CpuRows(rows[..|rows| - 1])
  {
    var front, last := CpuRows(rows[..|rows| - 1]), rows[|rows| - 1];
    var extended := front + [last];
    assert extended[|front|] == last;
    if last.cpu.Some? {
      assert false;
    }
  }

  /** A row later than every CPU row is sorted behind all of them. */
  lemma {:induction false} InsertCpuRows(rows: seq<Sample>, row: Sample)
    requires row.cpu.Some? ==> NoneAfter(CpuRows(rows), row)
    ensures CpuRows(Insert(rows, row)) == CpuRows(rows) + CpuRows([row])
  {
    if |rows| == 0 || NotAfter(rows[|rows| - 1], row) {
      CpuRowsAppend(rows, [row]);
    } else {
      var front, last := rows[..|rows| - 1], rows[|rows| - 1];
      if row.cpu.Some? {
        NoneAfterFront(rows, row);
      }
      InsertCpuRows(front, row);
      CpuRowsAppend(Insert(front, row), [last]);
      CpuRowsAppend(front, [last]);
      assert rows == front + [last];
      CpuRowsSingle(row);
      CpuRowsSingle(last);
    }
  }

  lemma CpuRowsSingle(row: Sample)
    ensures CpuRows([row]) == if row.cpu.Some? then [row] else []
  {
    assert [row][..0] == [];
  }

  /** Sorting keeps the CPU rows of a chronicle as they are, wherever the other rows stand. */
  lemma {:induction false} SortKeepsCpuRows(rows: seq<Sample>)
    requires Chronicle(CpuRows(rows))
    ensures CpuRows(SortByTime(rows)) == CpuRows(rows)
  {
    if |rows| > 0 {
      var front, last := rows[..|rows| - 1], rows[|rows| - 1];
      if last.cpu.Some? {
        ChronicleAppend(CpuRows(front), last);
        var all := CpuRows(rows);
        assert all[|all| - 1] == last;
        assert forall i :: 0 <= i < |CpuRows(front)| ==> CpuRows(front)[i] == all[i];
      } else {
        assert CpuRows(rows) == CpuRows(front);
      }
      SortKeepsCpuRows(front);
      InsertCpuRows(SortByTime(front), last);
      CpuRowsSingle(last);
    }
  }

  lemma TailOfTail(rows: seq<Sample>, k: nat)
    requires |rows| > 0 && k <= |CpuRows(rows[1..])|
    ensures exists j :: 0 <= j <= |CpuRows(rows)| && CpuRows(rows[1..])[k..] == CpuRows(rows)[j..]
  {
    assert rows == [rows[0]] + rows[1..];
    CpuRowsAppend([rows[0]], rows[1..]);
    var head := CpuRows([rows[0]]);
    assert CpuRows(rows)[|head| + k..] == CpuRows(rows[1..])[k..];
  }

  lemma {:induction false} NewestCpuRows(rows: seq<Sample>, limit: nat)
    requires CountCpu(rows) >= limit
    ensures |CpuRows(Newest(rows, limit))| >= limit
    ensures exists k :: 0 <= k <= |CpuRows(rows)| && CpuRows(Newest(rows, limit)) == CpuRows(rows)[k..]
  {
    if |rows| > 0 && CountCpu(rows[1..]) >= limit {
      NewestCpuRows(rows[1..], limit);
      var k :| 0 <= k <= |CpuRows(rows[1..])| && CpuRows(Newest(rows[1..], limit)) == CpuRows(rows[1..])[k..];
      TailOfTail(rows, k);
    } else {
      CpuRowsHaveCpu(rows);
      assert CpuRows(rows)[0..] == CpuRows(rows);
    }
  }

  lemma ChronicleTail(rows: seq<Sample>, k: nat)
    requires Chronicle(rows) && k <= |rows|
    ensures Chronicle(rows[k..]) && (k < |rows| ==> LastTime(rows[k..]) == LastTime(rows))
  {
    var tail := rows[k..];
    forall i | 0 <= i < |tail| ensures RowOk(tail[i]) {
      assert tail[i] == rows[k + i];
    }
    forall i, j | 0 <= i < j < |tail| ensures tail[i].time.value < tail[j].time.value {
      assert tail[i] == rows[k + i] && tail[j] == rows[k + j];
    }
  }

  /** Pruning to a positive count keeps a chronicle and its newest row. */
  lemma PruneCpuKeeps(rows: seq<Sample>, limit: int)
    requires Chronicle(CpuRows(rows)) && limit > 0
    ensures Chronicle(CpuRows(PruneCpu(rows, limit)))
    ensures LastTime(CpuRows(PruneCpu(rows, limit))) == LastTime(CpuRows(rows))
    ensures exists k :: 0 <= k <= |CpuRows(rows)| && CpuRows(PruneCpu(rows, limit)) == CpuRows(rows)[k..]
  {
    var cpu := CpuRows(rows);
    assert cpu[0..] == cpu;
    if CountCpu(rows) > limit {
      SortKeepsCpuRows(rows);
      SortCounts(rows);
      var sorted := SortByTime(rows);
      NewestCpuRows(sorted, limit);
      var k :| 0 <= k <= |cpu| && CpuRows(Newest(sorted, limit)) == cpu[k..];
      ChronicleTail(cpu, k);
    }
  }

  /** What validation of the resource demands. */
  predicate RetentionOk(retention: Retention) {
    match retention
    case ByCount(size) => size > 0
    case BySeasons(length, stored) => length >= 2 && stored >= 1
  }

  /** Every kind of retention keeps a chronicle, a tail of its measurements, and its newest row. */
  lemma RetainedKeeps(retention: Retention, rows: seq<Sample>)
    requires RetentionOk(retention) && Chronicle(CpuRows(rows)) && CountCpu(rows) > 0
    ensures Chronicle(CpuRows(Retained(retention, rows)))
    ensures LastTime(CpuRows(Retained(retention, rows))) == LastTime(CpuRows(rows))
    ensures exists k :: 0 <= k <= |CpuRows(rows)| && CpuRows(Retained(retention, rows)) == CpuRows(rows)[k..]
  {
    match retention
    case ByCount(size) => PruneCpuKeeps(rows, size);
    case BySeasons(length, stored) =>
      SortKeepsCpuRows(rows);
      var sorted := SortByTime(rows);
      if CountCpu(rows) / length <= stored {
        assert CpuRows(sorted) == CpuRows(rows)[0..];
      } else {
        MulMonotone(length, 1, stored);
        PruneCpuKeeps(sorted, stored * length);
      }
  }

  // ----- Age -----

  /** Any selection of rows in order. */
  lemma {:induction false} YoungerMember(rows: seq<Sample>, cutoff: int, row: Sample)
    ensures row in Younger(rows, cutoff) <==> row in rows && Later(row.time, cutoff)
  {
    if |rows| > 0 {
      YoungerMember(rows[..|rows| - 1], cutoff, row);
      assert rows == rows[..|rows| - 1] + [rows[|rows| - 1]];
    }
  }

  lemma {:induction false} CpuRowsMember(rows: seq<Sample>, row: Sample)
    ensures row in CpuRows(rows) <==> row in rows && row.cpu.Some?
  {
    if |rows| > 0 {
      CpuRowsMember(rows[..|rows| - 1], row);
      assert rows == rows[..|rows| - 1] + [rows[|rows| - 1]];
    }
  }

  lemma {:induction false} YoungerKeeps(rows: seq<Sample>, cutoff: int)
    requires Chronicle(CpuRows(rows))
    ensures Chronicle(CpuRows(Younger(rows, cutoff)))
  {
    if |rows| > 0 {
      var front, last := rows[..|rows| - 1], rows[|rows| - 1];
      var before, after := CpuRows(front), CpuRows(Younger(front, cutoff));
      if last.cpu.Some? {
        ChronicleAppend(before, last);
      } else {
        assert CpuRows(rows) == before;
      }
      YoungerKeeps(front, cutoff);
      if Later(last.time, cutoff) {
        CpuRowsAppend(Younger(front, cutoff), [last]);
        CpuRowsSingle(last);
        if last.cpu.Some? {
          if |after| > 0 {
            CpuRowsMember(Younger(front, cutoff), after[|after| - 1]);
            YoungerMember(front, cutoff, after[|after| - 1]);
            CpuRowsMember(front, after[|after| - 1]);
            BelowLast(before, last, after[|after| - 1]);
          }
          ChronicleAppend(after, last);
        }
      } else {
        assert Younger(rows, cutoff) == Younger(front, cutoff);
      }
    }
  }

  lemma BelowLast(rows: seq<Sample>, last: Sample, row: Sample)
    requires Chronicle(rows + [last]) && row in rows
    ensures row.time.Some? && last.time.Some? && row.time.value < last.time.value
  {
    var all := rows + [last];
    var i :| 0 <= i < |rows| && rows[i] == row;
    assert all[i] == row && all[|rows|] == last;
    assert RowOk(all[i]) && RowOk(all[|rows|]);
  }

  // ----- Soundness through the operations -----

  /** Rows replaced by some of the same rows, with a justified consumed timestamp, stay sound. */
  lemma FewerRowsStaySound(h: ModelHistory, rows: seq<Sample>, now: int)
    requires Assess(h, now) == Sound && Chronicle(CpuRows(rows))
    requires forall x :: x in CpuRows(rows) ==> x in CpuRows(h.rows)
    requires h.lastModelRun == None || LastTime(CpuRows(rows)) == LastTime(CpuRows(h.rows))
    ensures Assess(h.(rows := rows), now) == Sound
  {
    var some := CpuRows(rows);
    if AnyLater(some, now) {
      var i :| 0 <= i < |some| && Later(some[i].time, now);
      assert some[i] in CpuRows(h.rows);
      var j :| 0 <= j < |CpuRows(h.rows)| && CpuRows(h.rows)[j] == some[i];
      assert Later(CpuRows(h.rows)[j].time, now);
    }
  }

  lemma StrippedIsSound(h: ModelHistory, stripped: ModelHistory, now: int)
    requires Assess(h, now) == Sound
    requires stripped == h.(epoch := h.epoch + 1, cached := None, failure := None, reliability := None,
                            lastModelRun := None, progress := 0)
    ensures Assess(stripped, now) == Sound
  {
  }

  lemma AgedRows(rows: seq<Sample>, cutoff: int)
    ensures forall x :: x in Younger(rows, cutoff) ==> x in rows
    ensures forall x :: x in CpuRows(Younger(rows, cutoff)) ==> x in CpuRows(rows)
  {
    var kept := Younger(rows, cutoff);
    forall x | x in kept ensures x in rows {
      YoungerMember(rows, cutoff, x);
    }
    forall x | x in CpuRows(kept) ensures x in CpuRows(rows) {
      CpuRowsMember(kept, x);
      YoungerMember(rows, cutoff, x);
      CpuRowsMember(rows, x);
    }
  }

  lemma PruneAgedKeeps(maxAge: Option<int>, h: ModelHistory, now: int)
    requires Assess(h, now) == Sound && UsesCpu(h.kind) && PruneAged(maxAge, h, now).Ok?
    ensures Assess(PruneAged(maxAge, h, now).value, now) == Sound
    ensures forall x :: x in PruneAged(maxAge, h, now).value.rows ==> x in h.rows
  {
    if maxAge.Some? && |Younger(h.rows, now - maxAge.value)| != |h.rows| {
      var kept := Younger(h.rows, now - maxAge.value);
      YoungerKeeps(h.rows, now - maxAge.value);
      AgedRows(h.rows, now - maxAge.value);
      var stripped := h.(epoch := h.epoch + 1, cached := None, failure := None, reliability := None,
                         lastModelRun := None, progress := 0);
      StrippedIsSound(h, stripped, now);
      FewerRowsStaySound(stripped, kept, now);
    }
  }

  lemma FilterKeeps(h: ModelHistory, now: int)
    requires Assess(h, now) == Sound && UsesCpu(h.kind)
    ensures Assess(h.(rows := CpuRows(h.rows)), now) == Sound
  {
    CpuRowsHaveCpu(h.rows);
    CpuRowsIdempotent(CpuRows(h.rows));
    FewerRowsStaySound(h, CpuRows(h.rows), now);
  }

  lemma PruneKeeps(h: ModelHistory, retention: Retention, now: int)
    requires Assess(h, now) == Sound && UsesCpu(h.kind) && RetentionOk(retention) && CountCpu(h.rows) > 0
    ensures Assess(h.(rows := Retained(retention, h.rows)), now) == Sound
  {
    RetainedKeeps(retention, h.rows);
    var cpu := CpuRows(h.rows);
    var k :| 0 <= k <= |cpu| && CpuRows(Retained(retention, h.rows)) == cpu[k..];
    assert forall x :: x in cpu[k..] ==> x in cpu;
    FewerRowsStaySound(h, Retained(retention, h.rows), now);
  }
}
