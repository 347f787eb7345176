/**
 Room types and the per-night sums the simulator builds from them.

 A run holds an ordered list of room types. Every per-night quantity
 (price, consumables, utilities) is scaled by the room count and by the
 number of active days of the month, then summed over the list in order.
 */
module Rooms {
  import opened RealArith

  /** One configured category of rooms. The name is a display label only. */
  datatype RoomType = RoomType(
    name: string,
    count: nat,
    adr: real,
    consumables: real,
    utilDay: real
  )

  /** Which per-night figure of a room type a sum runs over. `Variable` is
      consumables plus utilities, as the sensitivity sweep adds them. */
  datatype PerNight = Adr | Consumables | Utilities | Variable

  function Rate(r: RoomType, k: PerNight): real {
    match k
    case Adr => r.adr
    case Consumables => r.consumables
    case Utilities => r.utilDay
    case Variable => r.consumables + r.utilDay
  }

  /** Sum over the room types of rate × count × days, in list order. */
  function NightlyTotal(rooms: seq<RoomType>, k: PerNight, days: real): (total: real)
    ensures days == 0.0 ==> total == 0.0
    decreases |rooms|
  {
    if |rooms| == 0 then 0.0
    else Rate(rooms[0], k) * (rooms[0].count as real) * days + NightlyTotal(rooms[1..], k, days)
  }

  /** Total number of rooms across all room types. */
  function TotalRooms(rooms: seq<RoomType>): (n: nat)
    ensures forall i :: 0 <= i < |rooms| ==> rooms[i].count <= n
    decreases |rooms|
  {
    if |rooms| == 0 then 0 else rooms[0].count + TotalRooms(rooms[1..])
  }

  /** Every room type has at least one room. */
  predicate AllOccupied(rooms: seq<RoomType>) {
    forall i :: 0 <= i < |rooms| ==> rooms[i].count >= 1
  }

  /** The same rooms with every count doubled. */
  function DoubleCounts(rooms: seq<RoomType>): (d: seq<RoomType>)
    ensures |d| == |rooms|
    ensures forall i :: 0 <= i < |rooms| ==>
      d[i].count == 2 * rooms[i].count && d[i] == rooms[i].(count := 2 * rooms[i].count)
  {
    seq(|rooms|, i requires 0 <= i < |rooms| => rooms[i].(count := 2 * rooms[i].count))
  }

  /** At least one room per room type means at least one room per entry. */
  lemma {:induction false} TotalRoomsAtLeastTypes(rooms: seq<RoomType>)
    requires AllOccupied(rooms)
    ensures TotalRooms(rooms) >= |rooms|
    decreases |rooms|
  {
    if |rooms| > 0 {
      TotalRoomsAtLeastTypes(rooms[1..]);
    }
  }

  lemma {:induction false} TotalRoomsDoubles(rooms: seq<RoomType>)
    ensures TotalRooms(DoubleCounts(rooms)) == 2 * TotalRooms(rooms)
    decreases |rooms|
  {
    if |rooms| > 0 {
      TotalRoomsDoubles(rooms[1..]);
      assert DoubleCounts(rooms)[1..] == DoubleCounts(rooms[1..]);
    }
  }

  /** A month-long sum is the day count times the one-day sum: the per-night
      figures scale linearly in the active days. */
  lemma {:induction false} NightlyTotalScalesWithDays(rooms: seq<RoomType>, k: PerNight, days: real)
    ensures NightlyTotal(rooms, k, days) == days * NightlyTotal(rooms, k, 1.0)
    decreases |rooms|
  {
    if |rooms| > 0 {
      NightlyTotalScalesWithDays(rooms[1..], k, days);
      var a := Rate(rooms[0], k) * (rooms[0].count as real);
      assert a * days == days * (a * 1.0);
    }
  }

  /** Summing consumables and utilities together equals summing them apart. */
  lemma {:induction false} VariableSplits(rooms: seq<RoomType>, days: real)
    ensures NightlyTotal(rooms, Variable, days)
         == NightlyTotal(rooms, Consumables, days) + NightlyTotal(rooms, Utilities, days)
    decreases |rooms|
  {
    if |rooms| > 0 {
      VariableSplits(rooms[1..], days);
      var r := rooms[0];
      var c := r.count as real;
      assert (r.consumables + r.utilDay) * c * days
          == r.consumables * c * days + r.utilDay * c * days;
    }
  }

  /** Doubling every room count doubles every per-night sum. */
  lemma {:induction false} NightlyTotalDoubles(rooms: seq<RoomType>, k: PerNight, days: real)
    ensures NightlyTotal(DoubleCounts(rooms), k, days) == 2.0 * NightlyTotal(rooms, k, days)
    decreases |rooms|
  {
    if |rooms| > 0 {
      NightlyTotalDoubles(rooms[1..], k, days);
      assert DoubleCounts(rooms)[1..] == DoubleCounts(rooms[1..]);
      var r := rooms[0];
      var a := Rate(r, k);
      var c := r.count as real;
      assert DoubleCounts(rooms)[0].count as real == 2.0 * c;
      assert a * (2.0 * c) * days == 2.0 * (a * c * days);
    }
  }

  /** Sum over the room types of x × count: the count-weighted total of one
      constant rate. */
  function CountWeighted(rooms: seq<RoomType>, x: real): real
    decreases |rooms|
  {
    if |rooms| == 0 then 0.0 else x * (rooms[0].count as real) + CountWeighted(rooms[1..], x)
  }

  /** A constant rate weighted by the counts is that rate times the number of
      rooms. */
  lemma {:induction false} CountWeightedIsProduct(rooms: seq<RoomType>, x: real)
    ensures CountWeighted(rooms, x) == x * (TotalRooms(rooms) as real)
    decreases |rooms|
  {
    if |rooms| > 0 {
      CountWeightedIsProduct(rooms[1..], x);
      var c := rooms[0].count as real;
      var t := TotalRooms(rooms[1..]) as real;
      assert x * c + x * t == x * (c + t);
    }
  }

  /** Rates at least lo give a one-day sum at least the count-weighted lo. */
  lemma {:induction false} NightlyTotalAtLeast(rooms: seq<RoomType>, k: PerNight, lo: real)
    requires forall i :: 0 <= i < |rooms| ==> lo <= Rate(rooms[i], k)
    ensures CountWeighted(rooms, lo) <= NightlyTotal(rooms, k, 1.0)
    decreases |rooms|
  {
    if |rooms| > 0 {
      NightlyTotalAtLeast(rooms[1..], k, lo);
      ProductNonNegative(Rate(rooms[0], k) - lo, rooms[0].count as real);
    }
  }

  /** Rates at most hi give a one-day sum at most the count-weighted hi. */
  lemma {:induction false} NightlyTotalAtMost(rooms: seq<RoomType>, k: PerNight, hi: real)
    requires forall i :: 0 <= i < |rooms| ==> Rate(rooms[i], k) <= hi
    ensures NightlyTotal(rooms, k, 1.0) <= CountWeighted(rooms, hi)
    decreases |rooms|
  {
    if |rooms| > 0 {
      NightlyTotalAtMost(rooms[1..], k, hi);
      ProductNonNegative(hi - Rate(rooms[0], k), rooms[0].count as real);
    }
  }

  /** If every rate lies in [lo, hi], the one-day sum lies between lo and hi
      times the number of rooms: it is a count-weighted total. */
  lemma NightlyTotalBetween(rooms: seq<RoomType>, k: PerNight, lo: real, hi: real)
    requires forall i :: 0 <= i < |rooms| ==> lo <= Rate(rooms[i], k) <= hi
    ensures lo * (TotalRooms(rooms) as real) <= NightlyTotal(rooms, k, 1.0)
    ensures NightlyTotal(rooms, k, 1.0) <= hi * (TotalRooms(rooms) as real)
  {
    NightlyTotalAtLeast(rooms, k, lo);
    NightlyTotalAtMost(rooms, k, hi);
    CountWeightedIsProduct(rooms, lo);
    CountWeightedIsProduct(rooms, hi);
  }

  /** Rates that are all zero give a zero sum, whatever the day count. */
  lemma {:induction false} NightlyTotalOfZeroRates(rooms: seq<RoomType>, k: PerNight, days: real)
    requires forall i :: 0 <= i < |rooms| ==> Rate(rooms[i], k) == 0.0
    ensures NightlyTotal(rooms, k, days) == 0.0
    decreases |rooms|
  {
    if |rooms| > 0 {
      NightlyTotalOfZeroRates(rooms[1..], k, days);
    }
  }

  /** Non-negative rates over a non-negative number of days give a
      non-negative sum. */
  lemma {:induction false} NightlyTotalNonNegative(rooms: seq<RoomType>, k: PerNight, days: real)
    requires forall i :: 0 <= i < |rooms| ==> 0.0 <= Rate(rooms[i], k)
    requires 0.0 <= days
    ensures 0.0 <= NightlyTotal(rooms, k, days)
    decreases |rooms|
  {
    if |rooms| > 0 {
      NightlyTotalNonNegative(rooms[1..], k, days);
      var r := rooms[0];
      ProductNonNegative(Rate(r, k), r.count as real);
      ProductNonNegative(Rate(r, k) * (r.count as real), days);
    }
  }

  /** For non-negative rates, more active days never lower the sum. */
  lemma {:induction false} NightlyTotalMonotoneInDays(rooms: seq<RoomType>, k: PerNight, d1: real, d2: real)
    requires forall i :: 0 <= i < |rooms| ==> 0.0 <= Rate(rooms[i], k)
    requires d1 <= d2
    ensures NightlyTotal(rooms, k, d1) <= NightlyTotal(rooms, k, d2)
  {
    NightlyTotalScalesWithDays(rooms, k, d1);
    NightlyTotalScalesWithDays(rooms, k, d2);
    NightlyTotalNonNegative(rooms, k, 1.0);
    ProductNonNegative(d2 - d1, NightlyTotal(rooms, k, 1.0));
  }
}
