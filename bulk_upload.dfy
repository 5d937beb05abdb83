/**
 * The bulk-upload panel of one platform: a mock file loader that fills the
 * item list, the schedule settings (start date, posts per day, time slots
 * edited as one comma-separated text field) and the "Generate Schedule"
 * action that stamps every item with a date, a time slot and the status
 * "scheduled".
 *
 * Calendar dates are integer day numbers. The date input's text is abstracted
 * to `Option<int>`: `None` stands for the empty (or unparseable) input, which
 * JavaScript turns into an invalid `Date`.
 */
module BulkUpload {
  import opened Options

  /** One row of the processed upload. JavaScript spreads the row, so every
      field but the three the scheduler writes is carried over untouched. */
  datatype Item = Item(
    id: int,
    title: string,
    description: string,
    tags: string,
    status: string,
    scheduledDate: Option<int>,
    scheduledTime: Option<string>)

  const Pending: string := "pending"
  const Scheduled: string := "scheduled"

  /** Used when the slot for a position is missing or the empty string. */
  const DefaultTime: string := "10:00"

  /** The separator of the time-slot text field. */
  const Sep: string := ", "

  // ---------------------------------------------------------------------
  // Mock loader
  // ---------------------------------------------------------------------

  function DigitChar(d: nat): (c: char)
    requires d < 10
    ensures '0' <= c <= '9'
  {
    "0123456789"[d]
  }

  /** Decimal rendering of a natural number, as a template literal prints it. */
  function NatToString(n: nat): (s: string)
    ensures |s| >= 1
    ensures forall k :: 0 <= k < |s| ==> '0' <= s[k] <= '9'
    decreases n
  {
    if n < 10 then [DigitChar(n)] else NatToString(n / 10) + [DigitChar(n % 10)]
  }

  /** The row the mock loader builds at position `i`. */
  function MockItem(i: nat): Item
  {
    var n := NatToString(i + 1);
    Item(i + 1, "Video Title " + n, "Description for video " + n,
         "tag" + n + ", video, content", Pending, None, None)
  }

  /** The 100 rows the mock loader produces for any chosen file. */
  function MockData(): seq<Item>
  {
    seq(100, i requires 0 <= i < 100 => MockItem(i))
  }

  /** Exactly 100 rows, ids 1..100 in order, all pending and unscheduled. */
  lemma MockDataShape()
    ensures |MockData()| == 100
    ensures forall i :: 0 <= i < |MockData()| ==>
      && MockData()[i].id == i + 1
      && MockData()[i].status == Pending
      && MockData()[i].scheduledDate == None
      && MockData()[i].scheduledTime == None
  {
  }

  /** No two mock rows share an id. */
  lemma MockIdsDistinct()
    ensures forall i, j :: 0 <= i < j < |MockData()| ==> MockData()[i].id != MockData()[j].id
  {
  }

  // ---------------------------------------------------------------------
  // Schedule generation
  // ---------------------------------------------------------------------

  /** The time for slot `k` of a day: the k-th slot unless it is missing or empty. */
  function SlotTime(slots: seq<string>, k: nat): (t: string)
  {
    if k < |slots| && slots[k] != "" then slots[k] else DefaultTime
  }

  /** `{...item, scheduledDate, scheduledTime, status: 'scheduled'}`. */
  function Stamp(item: Item, day: int, time: string): Item
  {
    item.(scheduledDate := Some(day), scheduledTime := Some(time), status := Scheduled)
  }

  /** The `map` over the item list: position `i` goes to day
      `start + i / postsPerDay` at slot `i % postsPerDay`. */
  function Schedule(items: seq<Item>, start: int, postsPerDay: int, slots: seq<string>): (r: seq<Item>)
    requires postsPerDay >= 1
  {
    seq(|items|, i requires 0 <= i < |items| =>
      Stamp(items[i], start + i / postsPerDay, SlotTime(slots, i % postsPerDay)))
  }

  /** Same length and order; every field the scheduler does not write is kept;
      every item ends "scheduled" with a date and a time. */
  lemma ScheduleKeepsItems(items: seq<Item>, start: int, postsPerDay: int, slots: seq<string>)
    requires postsPerDay >= 1
    ensures var r := Schedule(items, start, postsPerDay, slots);
      && |r| == |items|
      && forall i :: 0 <= i < |r| ==>
        && r[i].id == items[i].id
        && r[i].title == items[i].title
        && r[i].description == items[i].description
        && r[i].tags == items[i].tags
        && r[i].status == Scheduled
        && r[i].scheduledDate.Some?
        && r[i].scheduledTime.Some?
  {
  }

  /** The date of position `i` is `start + floor(i / postsPerDay)`, never before `start`. */
  lemma ScheduleDate(items: seq<Item>, start: int, postsPerDay: int, slots: seq<string>, i: int)
    requires postsPerDay >= 1
    requires 0 <= i < |items|
    ensures var r := Schedule(items, start, postsPerDay, slots);
      && r[i].scheduledDate == Some(start + i / postsPerDay)
      && start <= r[i].scheduledDate.value
  {
  }

  /** The time of position `i` is slot `i mod postsPerDay` when that slot exists
      and is non-empty, and the default time exactly otherwise. */
  lemma ScheduleTime(items: seq<Item>, start: int, postsPerDay: int, slots: seq<string>, i: int)
    requires postsPerDay >= 1
    requires 0 <= i < |items|
    ensures var r := Schedule(items, start, postsPerDay, slots);
      var k := i % postsPerDay;
      && (k < |slots| && slots[k] != "" ==> r[i].scheduledTime == Some(slots[k]))
      && (k >= |slots| || slots[k] == "" ==> r[i].scheduledTime == Some(DefaultTime))
  {
  }

  /** Multiplying by a positive factor keeps the order. */
  lemma MulMonotone(a: int, b: int, p: int)
    requires p >= 1
    ensures a >= b ==> a * p >= b * p
  {
    assert (a - b) * p == a * p - b * p;
  }

  lemma DivMonotone(i: int, j: int, p: int)
    requires p >= 1 && 0 <= i <= j
    ensures i / p <= j / p
  {
    assert i == (i / p) * p + i % p;
    assert j == (j / p) * p + j % p;
    MulMonotone(i / p, j / p + 1, p);
    assert (j / p + 1) * p == (j / p) * p + p;
  }

  /** Dates never decrease along the list. */
  lemma ScheduleDatesMonotone(items: seq<Item>, start: int, postsPerDay: int, slots: seq<string>, i: int, j: int)
    requires postsPerDay >= 1
    requires 0 <= i <= j < |items|
    ensures var r := Schedule(items, start, postsPerDay, slots);
      r[i].scheduledDate.value <= r[j].scheduledDate.value
  {
    DivMonotone(i, j, postsPerDay);
  }

  /** The integers in `[lo, lo + n)`: exactly `n` of them. */
  function Range(lo: int, n: nat): (s: set<int>)
    ensures forall i :: i in s <==> lo <= i < lo + n
    ensures |s| == n
    decreases n
  {
    if n == 0 then {} else Range(lo, n - 1) + {lo + n - 1}
  }

  /** The positions whose date is `day`. */
  function PositionsOn(r: seq<Item>, day: int): set<int>
  {
    set i | 0 <= i < |r| && r[i].scheduledDate == Some(day)
  }

  /** A position lies in the window of `postsPerDay` positions of its day. */
  lemma DivWindow(i: int, p: int)
    requires p >= 1
    ensures (i / p) * p <= i < (i / p) * p + p
  {
  }

  /** A subset is never larger than its superset. */
  lemma SubsetSize(a: set<int>, b: set<int>)
    requires a <= b
    ensures |a| <= |b|
  {
    assert b == a + (b - a);
    assert a * (b - a) == {};
  }

  /** No more than `postsPerDay` items share a date. */
  lemma ScheduleDayCapacity(items: seq<Item>, start: int, postsPerDay: int, slots: seq<string>, day: int)
    requires postsPerDay >= 1
    ensures |PositionsOn(Schedule(items, start, postsPerDay, slots), day)| <= postsPerDay
  {
    var r := Schedule(items, start, postsPerDay, slots);
    var q := day - start;
    var on := PositionsOn(r, day);
    var window := Range(q * postsPerDay, postsPerDay);
    forall i | i in on ensures i in window {
      assert i / postsPerDay == q;
      DivWindow(i, postsPerDay);
    }
    SubsetSize(on, window);
  }

  /** A second run with the same settings changes nothing: the scheduler only
      overwrites the three fields it writes. */
  lemma ScheduleIdempotent(items: seq<Item>, start: int, postsPerDay: int, slots: seq<string>)
    requires postsPerDay >= 1
    ensures var r := Schedule(items, start, postsPerDay, slots);
      Schedule(r, start, postsPerDay, slots) == r
  {
  }

  /** An independent reference: a cursor walk that keeps the current day and
      the slot index within it, and moves to the next day after `postsPerDay`
      items. */
  function Walk(items: seq<Item>, day: int, slot: nat, postsPerDay: int, slots: seq<string>): seq<Item>
    requires 1 <= postsPerDay && slot < postsPerDay
    decreases |items|
  {
    if items == [] then []
    else
      var nextDay := if slot + 1 == postsPerDay then day + 1 else day;
      var nextSlot := if slot + 1 == postsPerDay then 0 else slot + 1;
      [Stamp(items[0], day, SlotTime(slots, slot))] + Walk(items[1..], nextDay, nextSlot, postsPerDay, slots)
  }

  /** Euclidean division is determined by quotient and remainder. */
  lemma DivModUnique(n: int, p: int, q: int, m: int)
    requires p >= 1 && 0 <= m < p && n == q * p + m
    ensures n / p == q && n % p == m
  {
    var q', m' := n / p, n % p;
    assert n == q' * p + m';
    MulMonotone(q, q' + 1, p);
    MulMonotone(q', q + 1, p);
    assert (q' + 1) * p == q' * p + p;
    assert (q + 1) * p == q * p + p;
  }

  /** How `k / p` and `k % p` move when `k` grows by one. */
  lemma DivModStep(k: nat, p: int)
    requires p >= 1
    ensures k % p + 1 < p ==> (k + 1) / p == k / p && (k + 1) % p == k % p + 1
    ensures k % p + 1 == p ==> (k + 1) / p == k / p + 1 && (k + 1) % p == 0
  {
    var q, m := k / p, k % p;
    assert k == q * p + m;
    if m + 1 < p {
      DivModUnique(k + 1, p, q, m + 1);
    } else {
      DivModUnique(k + 1, p, q + 1, 0);
    }
  }

  lemma {:induction false} WalkFrom(items: seq<Item>, start: int, postsPerDay: int, slots: seq<string>, k: nat)
    requires postsPerDay >= 1 && k <= |items|
    ensures Walk(items[k..], start + k / postsPerDay, k % postsPerDay, postsPerDay, slots)
         == Schedule(items, start, postsPerDay, slots)[k..]
    decreases |items| - k
  {
    var r := Schedule(items, start, postsPerDay, slots);
    if k < |items| {
      DivModStep(k, postsPerDay);
      WalkFrom(items, start, postsPerDay, slots, k + 1);
      assert items[k..][1..] == items[k + 1..];
      assert r[k..] == [r[k]] + r[k + 1..];
    }
  }

  /** The per-index formula of the source and the day-by-day cursor walk
      produce the same schedule. */
  lemma ScheduleIsCursorWalk(items: seq<Item>, start: int, postsPerDay: int, slots: seq<string>)
    requires postsPerDay >= 1
    ensures Schedule(items, start, postsPerDay, slots) == Walk(items, start, 0, postsPerDay, slots)
  {
    WalkFrom(items, start, postsPerDay, slots, 0);
    assert items[0..] == items;
  }

  /** Seven items, three a day, slots 10:00/14:00/18:00: three items on the
      first day, three on the second, the seventh on the third at 10:00. */
  lemma ScheduleSevenItems(items: seq<Item>, start: int)
    requires |items| == 7
    ensures var r := Schedule(items, start, 3, ["10:00", "14:00", "18:00"]);
      && [r[0].scheduledDate, r[1].scheduledDate, r[2].scheduledDate] == [Some(start), Some(start), Some(start)]
      && [r[3].scheduledDate, r[4].scheduledDate, r[5].scheduledDate] == [Some(start + 1), Some(start + 1), Some(start + 1)]
      && r[6].scheduledDate == Some(start + 2)
      && [r[0].scheduledTime, r[1].scheduledTime, r[2].scheduledTime] == [Some("10:00"), Some("14:00"), Some("18:00")]
      && [r[3].scheduledTime, r[4].scheduledTime, r[5].scheduledTime] == [Some("10:00"), Some("14:00"), Some("18:00")]
      && r[6].scheduledTime == Some("10:00")
  {
  }

  /** With no slot text at all every item gets the default time. */
  lemma ScheduleEmptySlots(items: seq<Item>, start: int, postsPerDay: int)
    requires postsPerDay >= 1
    ensures var r := Schedule(items, start, postsPerDay, []);
      forall i :: 0 <= i < |r| ==> r[i].scheduledTime == Some(DefaultTime)
  {
  }

  // ---------------------------------------------------------------------
  // Time-slot text field: slots shown as `join(', ')`, read back with `split(', ')`
  // ---------------------------------------------------------------------

  /** `Array.prototype.join(', ')`. */
  function Join(xs: seq<string>): string
  {
    if |xs| == 0 then ""
    else if |xs| == 1 then xs[0]
    else xs[0] + Sep + Join(xs[1..])
  }

  /** `String.prototype.split(', ')`: cuts at every occurrence of the separator,
      scanning left to right; the empty string gives one empty piece. */
  function Split(s: string): (r: seq<string>)
    ensures |r| >= 1
    decreases |s|
  {
    if |s| < 2 then [s]
    else if s[..2] == Sep then [""] + Split(s[2..])
    else
      var rest := Split(s[1..]);
      [[s[0]] + rest[0]] + rest[1..]
  }

  /** `s.includes(', ')`. */
  predicate ContainsSep(s: string)
  {
    exists i :: 0 <= i < |s| - 1 && s[i] == ',' && s[i + 1] == ' '
  }

  lemma JoinHead(c: char, x: string, ys: seq<string>)
    ensures Join([[c] + x] + ys) == [c] + Join([x] + ys)
  {
    if |ys| > 0 {
      assert ([[c] + x] + ys)[1..] == ys;
      assert ([x] + ys)[1..] == ys;
    }
  }

  /** Whatever is typed, splitting and joining again gives the same text. */
  lemma {:induction false} JoinSplit(s: string)
    ensures Join(Split(s)) == s
    decreases |s|
  {
    if |s| < 2 {
    } else if s[..2] == Sep {
      var t := Split(s[2..]);
      JoinSplit(s[2..]);
      assert ([""] + t)[1..] == t;
      assert s == Sep + s[2..];
    } else {
      var rest := Split(s[1..]);
      JoinSplit(s[1..]);
      JoinHead(s[0], rest[0], rest[1..]);
      assert [rest[0]] + rest[1..] == rest;
      assert s == [s[0]] + s[1..];
    }
  }

  /** Dropping the first character cannot create a separator. */
  lemma NoSepTail(a: string)
    requires |a| >= 1 && !ContainsSep(a)
    ensures !ContainsSep(a[1..])
  {
    forall i | 0 <= i < |a| - 2
      ensures !(a[1..][i] == ',' && a[1..][i + 1] == ' ')
    {
      assert a[1..][i] == a[i + 1] && a[1..][i + 1] == a[i + 2];
    }
  }

  lemma {:induction false} SplitNoSep(a: string)
    requires !ContainsSep(a)
    ensures Split(a) == [a]
    decreases |a|
  {
    if |a| >= 2 {
      assert a[..2] != Sep by {
        assert !(a[0] == ',' && a[1] == ' ');
        assert a[..2][0] == a[0] && a[..2][1] == a[1];
      }
      NoSepTail(a);
      SplitNoSep(a[1..]);
      assert a == [a[0]] + a[1..];
    }
  }

  lemma {:induction false} SplitAfter(a: string, t: string)
    requires !ContainsSep(a)
    ensures Split(a + Sep + t) == [a] + Split(t)
    decreases |a|
  {
    var s := a + Sep + t;
    if |a| == 0 {
      assert s[..2] == Sep;
      assert s[2..] == t;
    } else {
      assert s[..2] != Sep by {
        if |a| == 1 {
          assert s[..2][1] == ',';
        } else {
          assert !(a[0] == ',' && a[1] == ' ');
          assert s[..2][0] == a[0] && s[..2][1] == a[1];
        }
      }
      NoSepTail(a);
      SplitAfter(a[1..], t);
      assert s[1..] == a[1..] + Sep + t;
      assert [s[0]] + a[1..] == a;
    }
  }

  /** Showing a non-empty slot list in the text field and reading it back gives
      the same list, provided no slot itself contains the separator. */
  lemma {:induction false} SplitJoin(xs: seq<string>)
    requires |xs| >= 1
    requires forall k :: 0 <= k < |xs| ==> !ContainsSep(xs[k])
    ensures Split(Join(xs)) == xs
    decreases |xs|
  {
    if |xs| == 1 {
      SplitNoSep(xs[0]);
    } else {
      SplitJoin(xs[1..]);
      SplitAfter(xs[0], Join(xs[1..]));
      assert [xs[0]] + xs[1..] == xs;
    }
  }

  // ---------------------------------------------------------------------
  // Component state
  // ---------------------------------------------------------------------

  /** The state of the bulk-upload component and its event handlers. */
  class BulkUploadPanel {
    /** Name of the chosen file, `None` before any file is chosen. */
    var uploadedFile: Option<string>
    var processedData: seq<Item>
    var startDate: Option<int>
    var postsPerDay: int
    var timeSlots: seq<string>

    /** The select offers 1 to 4 posts a day, and the slot list is never
        empty: it starts with three slots and `split` always yields a piece. */
    ghost predicate Valid()
      reads this
    {
      1 <= postsPerDay <= 4 && |timeSlots| >= 1
    }

    constructor ()
      ensures Valid()
      ensures uploadedFile == None && processedData == []
      ensures startDate == None && postsPerDay == 3
      ensures timeSlots == ["10:00", "14:00", "18:00"]
    {
      uploadedFile := None;
      processedData := [];
      startDate := None;
      postsPerDay := 3;
      timeSlots := ["10:00", "14:00", "18:00"];
    }

    /** Choosing a file replaces the rows with the 100 mock rows; dismissing
        the dialog without a file changes nothing. */
    method HandleFileUpload(file: Option<string>)
      requires Valid()
      modifies this`uploadedFile, this`processedData
      ensures Valid()
      ensures file.Some? ==> uploadedFile == file && processedData == MockData()
      ensures file.None? ==> uploadedFile == old(uploadedFile) && processedData == old(processedData)
    {
      if file.Some? {
        uploadedFile := file;
        processedData := MockData();
      }
    }

    method SetStartDate(date: Option<int>)
      requires Valid()
      modifies this`startDate
      ensures Valid() && startDate == date
    {
      startDate := date;
    }

    /** The select's value, one of its four options. */
    method SetPostsPerDay(n: int)
      requires Valid()
      requires 1 <= n <= 4
      modifies this`postsPerDay
      ensures Valid() && postsPerDay == n
    {
      postsPerDay := n;
    }

    /** What the time-slot text field shows. */
    function TimeSlotsText(): (text: string)
      reads this
    {
      Join(timeSlots)
    }

    /** Editing the time-slot text field. */
    method SetTimeSlotsText(text: string)
      requires Valid()
      modifies this`timeSlots
      ensures Valid() && timeSlots == Split(text)
      ensures TimeSlotsText() == text
    {
      timeSlots := Split(text);
      JoinSplit(text);
    }

    /** "Generate Schedule". An invalid start date makes `toISOString` throw as
        soon as the first row is mapped, so the rows stay as they were; with
        no rows the callback never runs and nothing fails. */
    method GenerateSchedule() returns (ok: bool)
      requires Valid()
      modifies this`processedData
      ensures Valid()
      ensures ok <==> startDate.Some? || old(processedData) == []
      ensures startDate.Some? ==> processedData == Schedule(old(processedData), startDate.value, postsPerDay, timeSlots)
      ensures startDate.None? ==> processedData == old(processedData)
    {
      if startDate.Some? {
        processedData := Schedule(processedData, startDate.value, postsPerDay, timeSlots);
        ok := true;
      } else {
        ok := processedData == [];
      }
    }
  }
}
