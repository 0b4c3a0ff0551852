/**
 The two read-only catalog queries the handlers issue: the earliest row
 passing a filter (`WHERE … ORDER BY date ASC LIMIT 1`) and a lookup by
 primary key. The catalog tables are read, never written, by the core.
 */
module Catalog {
  import opened Wrappers
  import opened Models

  /** The first row, in table order, among those that pass `eligible` and have
      the least `key`. The database leaves the order among equal keys
      unspecified; table order is this model's choice. */
  function Earliest<T>(rows: seq<T>, eligible: T -> bool, key: T -> int): (r: Option<T>)
    ensures r.Some? ==> r.value in rows && eligible(r.value)
    ensures r.Some? ==> forall x :: x in rows && eligible(x) ==> key(r.value) <= key(x)
    ensures r.None? <==> forall x :: x in rows ==> !eligible(x)
  {
    if |rows| == 0 then None
    else
      var rest := Earliest(rows[1..], eligible, key);
      assert forall x :: x in rows ==> x == rows[0] || x in rows[1..];
      if !eligible(rows[0]) then rest
      else if rest.Some? && key(rest.value) < key(rows[0]) then rest
      else Some(rows[0])
  }

  /** The next webinar: the earliest one dated strictly after `now`. */
  function NextWebinar(ws: seq<Webinar>, now: Time): (r: Option<Webinar>)
    ensures r.Some? ==> r.value in ws && r.value.date > now
    ensures r.Some? ==> forall w :: w in ws && w.date > now ==> r.value.date <= w.date
    ensures r.None? <==> forall w :: w in ws ==> w.date <= now
  {
    Earliest(ws, (w: Webinar) => w.date > now, (w: Webinar) => w.date)
  }

  /** A course is on sale when it is active and has not started yet. */
  predicate OnSale(c: Course, now: Time) {
    c.isActive && c.startDate > now
  }

  /** The course offered for purchase: the on-sale course that starts first. */
  function SelectCourse(cs: seq<Course>, now: Time): (r: Option<Course>)
    ensures r.Some? ==> r.value in cs && r.value.isActive && r.value.startDate > now
    ensures r.Some? ==> forall c :: c in cs && OnSale(c, now) ==> r.value.startDate <= c.startDate
    ensures r.None? <==> forall c :: c in cs ==> !OnSale(c, now)
  {
    Earliest(cs, (c: Course) => OnSale(c, now), (c: Course) => c.startDate)
  }

  /** A webinar by primary key. */
  function FindWebinar(ws: seq<Webinar>, id: int): (r: Option<Webinar>)
    ensures r.Some? ==> r.value in ws && r.value.id == id
    ensures r.None? <==> !HasWebinar(ws, id)
  {
    if |ws| == 0 then None
    else if ws[0].id == id then Some(ws[0])
    else
      assert forall w :: w in ws ==> w == ws[0] || w in ws[1..];
      FindWebinar(ws[1..], id)
  }

  /** With unique ids the lookup finds the one webinar carrying the id. */
  lemma {:induction false} FindWebinarIsTheRow(ws: seq<Webinar>, w: Webinar)
    requires UniqueWebinarIds(ws)
    requires w in ws
    ensures FindWebinar(ws, w.id) == Some(w)
  {
  }
}
