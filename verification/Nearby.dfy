/** Nearby events: reading the two reply encodings of the geo search, and choosing the closest events. */
module Nearby {
  import opened Domain

  /** A reply value: text with the finite number it denotes, if any; an array; or anything else. */
  datatype Raw = Text(text: string, number: Option<real>) | Items(items: seq<Raw>) | Other

  datatype VenueDistance = VenueDistance(venueId: string, distanceKm: real)

  datatype Event = Event(eventId: Id, venueId: Option<string>, hasVenue: bool, isActive: bool, startsAt: int)

  datatype Result = Result(event: Event, distanceKm: real)

  // ---- Parsing ----

  /** Zero or one venue distance, from an id and a distance. */
  function Pair(id: Raw, distance: Raw): seq<VenueDistance> {
    if id.Text? && distance.Text? && distance.number.Some?
    then [VenueDistance(id.text, distance.number.value)] else []
  }

  function ItemOr(items: seq<Raw>, i: nat): Raw {
    if i < |items| then items[i] else Other
  }

  function FromNested(raw: seq<Raw>): seq<VenueDistance>
    requires AllNested(raw)
  {
    if raw == [] then []
    else
      var last := raw[|raw| - 1].items;
      FromNested(raw[..|raw| - 1]) + Pair(ItemOr(last, 0), ItemOr(last, 1))
  }

  /** The first n pairs of a flat list. */
  function FromFlat(raw: seq<Raw>, n: nat): seq<VenueDistance>
    requires 2 * n <= |raw|
  {
    if n == 0 then [] else FromFlat(raw, n - 1) + Pair(raw[2 * n - 2], raw[2 * n - 1])
  }

  predicate AllNested(raw: seq<Raw>) {
    forall r :: r in raw ==> r.Items?
  }

  function Parse(raw: Raw): seq<VenueDistance> {
    if !raw.Items? then []
    else if AllNested(raw.items) then FromNested(raw.items)
    else FromFlat(raw.items, |raw.items| / 2)
  }

  method ParseNested(items: seq<Raw>) returns (results: seq<VenueDistance>)
    requires AllNested(items)
    ensures results == FromNested(items)
  {
    results := [];
    for i := 0 to |items|
      invariant results == FromNested(items[..i])
    {
      assert items[..i + 1][..i] == items[..i];
      var result := items[i].items;
      var id, distance := ItemOr(result, 0), ItemOr(result, 1);
      if id.Text? && distance.Text? && distance.number.Some? {
        results := results + [VenueDistance(id.text, distance.number.value)];
      }
    }
    assert items[..|items|] == items;
  }

  method ParseFlat(items: seq<Raw>) returns (results: seq<VenueDistance>)
    ensures results == FromFlat(items, |items| / 2)
  {
    results := [];
    var index := 0;
    while index + 1 < |items|
      invariant index % 2 == 0 && index <= |items|
      invariant results == FromFlat(items, index / 2)
    {
      var id, distance := items[index], items[index + 1];
      if id.Text? && distance.Text? && distance.number.Some? {
        results := results + [VenueDistance(id.text, distance.number.value)];
      }
      assert 2 * (index / 2 + 1) - 2 == index;
      index := index + 2;
    }
  }

  method ParseGeoResults(raw: Raw) returns (results: seq<VenueDistance>)
    ensures results == Parse(raw)
  {
    if !raw.Items? {
      return [];
    }
    if AllNested(raw.items) {
      results := ParseNested(raw.items);
    } else {
      results := ParseFlat(raw.items);
    }
  }

  // -- What is parsed --

  /** A reply item whose first two parts are text, the second denoting a number. */
  predicate WellFormed(id: Raw, distance: Raw) {
    id.Text? && distance.Text? && distance.number.Some?
  }

  /** The pairs of a nested reply and of a flat one, whose odd last item is dropped. */
  function NestedPairs(raw: seq<Raw>): seq<(Raw, Raw)>
    requires AllNested(raw)
  {
    seq(|raw|, i requires 0 <= i < |raw| =>
      (if 0 < |raw[i].items| then raw[i].items[0] else Other, if 1 < |raw[i].items| then raw[i].items[1] else Other))
  }

  function FlatPairs(raw: seq<Raw>): seq<(Raw, Raw)> {
    seq(|raw| / 2, i requires 0 <= i < |raw| / 2 => (raw[2 * i], raw[2 * i + 1]))
  }

  /** `places` are, in order, exactly the places of the well-formed pairs, and `list` is what these say. */
  ghost predicate Parsed(pairs: seq<(Raw, Raw)>, places: seq<nat>, list: seq<VenueDistance>) {
    && |places| == |list|
    && (forall i, j :: 0 <= i < j < |places| ==> places[i] < places[j])
    && (forall i :: i in places ==> i < |pairs| && WellFormed(pairs[i].0, pairs[i].1))
    && (forall i: nat :: i < |pairs| && WellFormed(pairs[i].0, pairs[i].1) ==> i in places)
    && (forall k :: 0 <= k < |list| ==>
          places[k] < |pairs| && WellFormed(pairs[places[k]].0, pairs[places[k]].1)
          && list[k].venueId == pairs[places[k]].0.text && list[k].distanceKm == pairs[places[k]].1.number.value)
  }

  lemma ParsedMore(pairs: seq<(Raw, Raw)>, places: seq<nat>, list: seq<VenueDistance>, pair: (Raw, Raw)) returns (more: seq<nat>)
    requires Parsed(pairs, places, list)
    ensures Parsed(pairs + [pair], more, list + Pair(pair.0, pair.1))
  {
    var all := pairs + [pair];
    if WellFormed(pair.0, pair.1) {
      more := places + [|pairs|];
      assert forall i :: i in more <==> i in places || i == |pairs|;
    } else {
      more := places;
    }
    assert forall k :: 0 <= k < |places| ==> places[k] in places;
    assert forall i :: 0 <= i < |pairs| ==> all[i] == pairs[i];
  }

  lemma {:induction false} NestedParsed(raw: seq<Raw>) returns (places: seq<nat>)
    requires AllNested(raw)
    ensures Parsed(NestedPairs(raw), places, FromNested(raw))
    decreases |raw|
  {
    if raw == [] {
      places := [];
    } else {
      var rest := raw[..|raw| - 1];
      var before := NestedParsed(rest);
      var last := NestedPairs(raw)[|raw| - 1];
      assert NestedPairs(raw) == NestedPairs(rest) + [last];
      places := ParsedMore(NestedPairs(rest), before, FromNested(rest), last);
    }
  }

  lemma FlatPairAt(raw: seq<Raw>, n: nat)
    requires 0 < n && 2 * n <= |raw|
    ensures n <= |FlatPairs(raw)|
    ensures FlatPairs(raw)[..n] == FlatPairs(raw)[..n - 1] + [(raw[2 * n - 2], raw[2 * n - 1])]
  {
    var pairs := FlatPairs(raw);
    assert 2 * (n - 1) == 2 * n - 2;
    assert pairs[n - 1] == (raw[2 * n - 2], raw[2 * n - 1]);
  }

  lemma {:induction false} FlatParsed(raw: seq<Raw>, n: nat) returns (places: seq<nat>)
    requires 2 * n <= |raw|
    ensures Parsed(FlatPairs(raw)[..n], places, FromFlat(raw, n))
    decreases n
  {
    if n == 0 {
      places := [];
    } else {
      var before := FlatParsed(raw, n - 1);
      FlatPairAt(raw, n);
      places := ParsedMore(FlatPairs(raw)[..n - 1], before, FromFlat(raw, n - 1), (raw[2 * n - 2], raw[2 * n - 1]));
    }
  }

  /** A reply parses to its well-formed pairs, all of them, once each and in order; the pairs are the items
      of a reply of arrays only, and the successive couples of any other array. Any other reply is empty. */
  lemma ParsesExactly(raw: Raw) returns (places: seq<nat>)
    ensures !raw.Items? ==> Parse(raw) == []
    ensures raw.Items? && AllNested(raw.items) ==> Parsed(NestedPairs(raw.items), places, Parse(raw))
    ensures raw.Items? && !AllNested(raw.items) ==> Parsed(FlatPairs(raw.items), places, Parse(raw))
  {
    places := [];
    if raw.Items? {
      if AllNested(raw.items) {
        places := NestedParsed(raw.items);
      } else {
        places := FlatParsed(raw.items, |raw.items| / 2);
        assert FlatPairs(raw.items)[..|raw.items| / 2] == FlatPairs(raw.items);
      }
    }
  }

  /** `render` gives each distance some text; what it denotes is the distance. */
  function NestedReply(list: seq<VenueDistance>, render: real -> string): seq<Raw> {
    if list == [] then []
    else
      var v := list[|list| - 1];
      NestedReply(list[..|list| - 1], render) + [Items([Text(v.venueId, None), Text(render(v.distanceKm), Some(v.distanceKm))])]
  }

  function FlatReply(list: seq<VenueDistance>, render: real -> string): (raw: seq<Raw>)
    ensures |raw| == 2 * |list|
  {
    if list == [] then []
    else
      var v := list[|list| - 1];
      FlatReply(list[..|list| - 1], render) + [Text(v.venueId, None), Text(render(v.distanceKm), Some(v.distanceKm))]
  }

  lemma {:induction false} NestedParses(list: seq<VenueDistance>, render: real -> string)
    ensures AllNested(NestedReply(list, render))
    ensures FromNested(NestedReply(list, render)) == list
    decreases |list|
  {
    if list != [] {
      var rest := list[..|list| - 1];
      NestedParses(rest, render);
      var raw := NestedReply(list, render);
      assert raw[..|raw| - 1] == NestedReply(rest, render);
      assert list == rest + [list[|list| - 1]];
    }
  }

  lemma {:induction false} FlatPrefix(raw: seq<Raw>, more: seq<Raw>, n: nat)
    requires 2 * n <= |raw|
    ensures FromFlat(raw + more, n) == FromFlat(raw, n)
  {
    if n > 0 {
      FlatPrefix(raw, more, n - 1);
    }
  }

  /** One more pair at the end of a flat list. */
  lemma FlatLast(raw: seq<Raw>, id: Raw, distance: Raw, n: nat)
    requires |raw| == 2 * n
    ensures FromFlat(raw + [id, distance], n + 1) == FromFlat(raw, n) + Pair(id, distance)
  {
    var all := raw + [id, distance];
    FlatPrefix(raw, [id, distance], n);
    assert all[2 * n] == id && all[2 * n + 1] == distance;
    assert 2 * (n + 1) - 2 == 2 * n;
  }

  lemma {:induction false} FlatParses(list: seq<VenueDistance>, render: real -> string)
    ensures FromFlat(FlatReply(list, render), |list|) == list
    decreases |list|
  {
    if list != [] {
      var rest := list[..|list| - 1];
      var v := list[|list| - 1];
      FlatParses(rest, render);
      var id, distance := Text(v.venueId, None), Text(render(v.distanceKm), Some(v.distanceKm));
      assert FlatReply(list, render) == FlatReply(rest, render) + [id, distance];
      FlatLast(FlatReply(rest, render), id, distance, |rest|);
      assert Pair(id, distance) == [v];
      assert list == rest + [v];
    }
  }

  lemma {:induction false} FlatIsText(list: seq<VenueDistance>, render: real -> string)
    ensures forall r :: r in FlatReply(list, render) ==> r.Text?
    decreases |list|
  {
    if list != [] {
      FlatIsText(list[..|list| - 1], render);
    }
  }

  lemma NestedReplyParses(list: seq<VenueDistance>, render: real -> string)
    ensures Parse(Items(NestedReply(list, render))) == list
  {
    NestedParses(list, render);
  }

  lemma FlatReplyParses(list: seq<VenueDistance>, render: real -> string)
    ensures Parse(Items(FlatReply(list, render))) == list
  {
    var flat := FlatReply(list, render);
    if list == [] {
      assert flat == [];
    } else {
      FlatParses(list, render);
      FlatIsText(list, render);
      assert flat[0] in flat;
      assert !AllNested(flat);
      assert |flat| / 2 == |list|;
    }
  }

  /** Both encodings of the same list parse to that list. */
  lemma {:induction false} EncodingsAgree(list: seq<VenueDistance>, render: real -> string)
    ensures Parse(Items(NestedReply(list, render))) == list
    ensures Parse(Items(FlatReply(list, render))) == list
  {
    NestedReplyParses(list, render);
    FlatReplyParses(list, render);
  }

  // ---- Selection ----

  /** Later entries for a venue win, as in a Map built from the list. */
  function Distances(list: seq<VenueDistance>): map<string, real> {
    if list == [] then map[]
    else Distances(list[..|list| - 1])[list[|list| - 1].venueId := list[|list| - 1].distanceKm]
  }

  /** The i-th pair is the last one of its venue. */
  ghost predicate LastOf(list: seq<VenueDistance>, i: nat, venueId: string) {
    i < |list| && list[i].venueId == venueId && forall j :: i < j < |list| ==> list[j].venueId != venueId
  }

  /** A venue has a distance exactly if it is listed, and then that of its last pair. */
  lemma {:induction false} LastDistanceWins(list: seq<VenueDistance>, venueId: string)
    ensures venueId in Distances(list) <==> exists i: nat :: LastOf(list, i, venueId)
    ensures forall i: nat :: LastOf(list, i, venueId) ==> Distances(list)[venueId] == list[i].distanceKm
    decreases |list|
  {
    if list != [] {
      var last := |list| - 1;
      LastDistanceWins(list[..last], venueId);
      if list[last].venueId == venueId {
        assert LastOf(list, last, venueId);
      } else {
        if venueId in Distances(list) {
          var i :| LastOf(list[..last], i, venueId);
          assert LastOf(list, i, venueId);
        }
        forall i: nat | LastOf(list, i, venueId) ensures LastOf(list[..last], i, venueId) {
        }
      }
    }
  }

  /** An event the database query returns and the venue filter keeps. */
  predicate Matching(e: Event, near: map<string, real>, now: int) {
    e.venueId.Some? && e.venueId.value in near && e.isActive && e.startsAt >= now && e.hasVenue
  }

  function Select(rows: seq<Event>, near: map<string, real>, now: int): (r: seq<Result>)
  {
    if rows == [] then []
    else
      var rest := Select(rows[1..], near, now);
      if Matching(rows[0], near, now) then [Result(rows[0], near[rows[0].venueId.value])] + rest else rest
  }

  /** Stable insertion: before everything that is at least as far. */
  function Insert(x: Result, xs: seq<Result>): seq<Result> {
    if xs == [] || x.distanceKm <= xs[0].distanceKm then [x] + xs
    else [xs[0]] + Insert(x, xs[1..])
  }

  function Sort(xs: seq<Result>): seq<Result> {
    if xs == [] then [] else Insert(xs[0], Sort(xs[1..]))
  }

  function Search(rows: seq<Event>, nearby: seq<VenueDistance>, limit: nat, now: int): seq<Result> {
    if nearby == [] then []
    else
      var sorted := Sort(Select(rows, Distances(nearby), now));
      if limit < |sorted| then sorted[..limit] else sorted
  }

  ghost predicate Ascending(xs: seq<Result>) {
    forall i, j :: 0 <= i < j < |xs| ==> xs[i].distanceKm <= xs[j].distanceKm
  }

  /** The results at one distance, in order. */
  function At(xs: seq<Result>, d: real): seq<Result> {
    if xs == [] then []
    else if xs[0].distanceKm == d then [xs[0]] + At(xs[1..], d)
    else At(xs[1..], d)
  }

  lemma {:induction false} InsertKeeps(x: Result, xs: seq<Result>)
    ensures multiset(Insert(x, xs)) == multiset{x} + multiset(xs)
    decreases |xs|
  {
    if xs != [] && xs[0].distanceKm < x.distanceKm {
      InsertKeeps(x, xs[1..]);
      assert xs == [xs[0]] + xs[1..];
    }
  }

  lemma HeadBelow(head: Result, tail: seq<Result>)
    requires Ascending(tail) && forall y :: y in tail ==> head.distanceKm <= y.distanceKm
    ensures Ascending([head] + tail)
  {
  }

  lemma InsertMembers(x: Result, xs: seq<Result>, y: Result)
    requires y in Insert(x, xs)
    ensures y == x || y in xs
  {
    InsertKeeps(x, xs);
    assert y in multiset(Insert(x, xs));
  }

  lemma AscendingRest(xs: seq<Result>)
    requires Ascending(xs) && xs != []
    ensures Ascending(xs[1..]) && forall y :: y in xs ==> xs[0].distanceKm <= y.distanceKm
  {
  }

  lemma {:induction false} InsertAscends(x: Result, xs: seq<Result>)
    requires Ascending(xs)
    ensures Ascending(Insert(x, xs))
    decreases |xs|
  {
    if xs != [] {
      AscendingRest(xs);
    }
    if xs == [] || x.distanceKm <= xs[0].distanceKm {
      HeadBelow(x, xs);
    } else {
      var tail := Insert(x, xs[1..]);
      InsertAscends(x, xs[1..]);
      forall y | y in tail ensures xs[0].distanceKm <= y.distanceKm {
        InsertMembers(x, xs[1..], y);
      }
      HeadBelow(xs[0], tail);
    }
  }

  lemma {:induction false} InsertIsStable(x: Result, xs: seq<Result>, d: real)
    ensures At(Insert(x, xs), d) == At([x] + xs, d)
    decreases |xs|
  {
    if xs != [] && xs[0].distanceKm < x.distanceKm {
      InsertIsStable(x, xs[1..], d);
      var tail := Insert(x, xs[1..]);
      assert ([xs[0]] + tail)[1..] == tail;
      assert ([x] + xs)[1..] == xs && ([x] + xs[1..])[1..] == xs[1..];
    }
  }

  /** The sort orders by distance, loses and invents nothing. */
  lemma {:induction false} SortSorts(xs: seq<Result>)
    ensures Ascending(Sort(xs)) && multiset(Sort(xs)) == multiset(xs)
    decreases |xs|
  {
    if xs != [] {
      SortSorts(xs[1..]);
      InsertAscends(xs[0], Sort(xs[1..]));
      InsertKeeps(xs[0], Sort(xs[1..]));
      assert xs == [xs[0]] + xs[1..];
    }
  }

  /** Events at the same distance keep the order the database gave them. */
  lemma {:induction false} SortIsStable(xs: seq<Result>, d: real)
    ensures At(Sort(xs), d) == At(xs, d)
    decreases |xs|
  {
    if xs != [] {
      var rest := Sort(xs[1..]);
      SortIsStable(xs[1..], d);
      InsertIsStable(xs[0], rest, d);
      assert ([xs[0]] + rest)[1..] == rest;
    }
  }

  /** The answer is sorted, within the limit, and a top-k: it and the rest of the matching events together
      are all of them, and no event of the rest is strictly closer than one in the answer. */
  lemma SearchIsTopK(rows: seq<Event>, nearby: seq<VenueDistance>, limit: nat, now: int) returns (rest: seq<Result>)
    ensures var answer := Search(rows, nearby, limit, now);
      && Ascending(answer) && |answer| <= limit
      && multiset(answer) + multiset(rest) == multiset(Select(rows, Distances(nearby), now))
      && (rest != [] ==> |answer| == limit)
      && (forall a, b :: a in answer && b in rest ==> a.distanceKm <= b.distanceKm)
  {
    var matching := Select(rows, Distances(nearby), now);
    var sorted := Sort(matching);
    SortSorts(matching);
    if nearby == [] {
      SelectNothing(rows, now);
      rest := [];
    } else if limit < |sorted| {
      rest := sorted[limit..];
      assert sorted == sorted[..limit] + rest;
    } else {
      rest := [];
    }
  }

  lemma {:induction false} SelectNothing(rows: seq<Event>, now: int)
    ensures Select(rows, map[], now) == []
    decreases |rows|
  {
    if rows != [] {
      SelectNothing(rows[1..], now);
    }
  }

  /** Exactly the matching events take part, each with its venue's distance. */
  lemma {:induction false} SelectExactly(rows: seq<Event>, near: map<string, real>, now: int, e: Event)
    ensures (exists r :: r in Select(rows, near, now) && r.event == e) <==> e in rows && Matching(e, near, now)
    ensures forall r :: r in Select(rows, near, now) ==>
      r.event.venueId.Some? && r.event.venueId.value in near && r.distanceKm == near[r.event.venueId.value]
    decreases |rows|
  {
    if rows != [] {
      SelectExactly(rows[1..], near, now, e);
      var rest := Select(rows[1..], near, now);
      if Matching(rows[0], near, now) {
        var head := Result(rows[0], near[rows[0].venueId.value]);
        assert Select(rows, near, now) == [head] + rest;
        assert head in Select(rows, near, now) && forall r :: r in rest ==> r in Select(rows, near, now);
      }
    }
  }

  // ---- The answer in terms of the reply ----

  /** The event is active, has not started, its venue row is there, and the i-th pair is its venue's last. */
  ghost predicate Offered(rows: seq<Event>, nearby: seq<VenueDistance>, now: int, e: Event, i: nat) {
    e in rows && e.isActive && now <= e.startsAt && e.hasVenue && e.venueId.Some? && LastOf(nearby, i, e.venueId.value)
  }

  lemma SelectOffered(rows: seq<Event>, nearby: seq<VenueDistance>, now: int, e: Event)
    ensures (exists r :: r in Select(rows, Distances(nearby), now) && r.event == e) <==>
            exists i: nat :: Offered(rows, nearby, now, e, i)
    ensures forall r, i: nat :: r in Select(rows, Distances(nearby), now) && r.event == e && Offered(rows, nearby, now, e, i) ==>
      r.distanceKm == nearby[i].distanceKm
  {
    SelectExactly(rows, Distances(nearby), now, e);
    if e.venueId.Some? {
      LastDistanceWins(nearby, e.venueId.value);
      forall i: nat | LastOf(nearby, i, e.venueId.value) && e in rows && e.isActive && now <= e.startsAt && e.hasVenue
        ensures Offered(rows, nearby, now, e, i)
      {
      }
    }
  }

  /** `places` are, in order, exactly the places of the rows that are active, have not started, have their
      venue and name a nearby one, and `found` are the events there. */
  ghost predicate Chosen(rows: seq<Event>, near: map<string, real>, now: int, places: seq<nat>, found: seq<Result>) {
    && |found| == |places|
    && (forall i, j :: 0 <= i < j < |places| ==> places[i] < places[j])
    && (forall k :: 0 <= k < |found| ==> places[k] < |rows| && found[k].event == rows[places[k]])
    && (forall i :: i in places ==> i < |rows| && InQuery(rows[i], near, now))
    && (forall i: nat :: i < |rows| && InQuery(rows[i], near, now) ==> i in places)
  }

  predicate InQuery(e: Event, near: map<string, real>, now: int) {
    e.isActive && now <= e.startsAt && e.hasVenue && e.venueId.Some? && e.venueId.value in near
  }

  lemma ChosenMore(rows: seq<Event>, near: map<string, real>, now: int, places: seq<nat>, found: seq<Result>, e: Event,
                   all: seq<Event>, allFound: seq<Result>)
    returns (more: seq<nat>)
    requires Chosen(rows, near, now, places, found) && all == rows + [e]
    requires allFound == found + if InQuery(e, near, now) then [Result(e, near[e.venueId.value])] else []
    ensures Chosen(all, near, now, more, allFound)
  {
    if InQuery(e, near, now) {
      more := places + [|rows|];
      assert forall i :: i in more <==> i in places || i == |rows|;
    } else {
      more := places;
    }
    assert forall k :: 0 <= k < |places| ==> places[k] in places;
    assert forall i :: 0 <= i < |rows| ==> all[i] == rows[i];
  }

  lemma {:induction false} SelectLast(rows: seq<Event>, near: map<string, real>, now: int)
    requires rows != []
    ensures var e := rows[|rows| - 1];
      Select(rows, near, now) ==
      Select(rows[..|rows| - 1], near, now) + if InQuery(e, near, now) then [Result(e, near[e.venueId.value])] else []
    decreases |rows|
  {
    if |rows| > 1 {
      SelectLast(rows[1..], near, now);
      assert rows[1..][..|rows| - 2] == rows[..|rows| - 1][1..];
    } else {
      assert Select(rows[1..], near, now) == [];
    }
  }

  /** The candidates are the rows that match, in the order of the database and once each. */
  lemma {:induction false} SelectInOrder(rows: seq<Event>, near: map<string, real>, now: int) returns (places: seq<nat>)
    ensures Chosen(rows, near, now, places, Select(rows, near, now))
    decreases |rows|
  {
    if rows == [] {
      places := [];
    } else {
      var before := rows[..|rows| - 1];
      var first := SelectInOrder(before, near, now);
      var e := rows[|rows| - 1];
      SelectLast(rows, near, now);
      assert rows == before + [e];
      places := ChosenMore(before, near, now, first, Select(before, near, now), e, rows, Select(rows, near, now));
    }
  }

  /** Every returned event is on offer, at the distance of the last nearby pair of its venue. */
  lemma AnswersAreOffered(rows: seq<Event>, nearby: seq<VenueDistance>, limit: nat, now: int, r: Result) returns (i: nat)
    requires r in Search(rows, nearby, limit, now)
    ensures Offered(rows, nearby, now, r.event, i) && r.distanceKm == nearby[i].distanceKm
  {
    var rest := SearchIsTopK(rows, nearby, limit, now);
    var answer, matching := Search(rows, nearby, limit, now), Select(rows, Distances(nearby), now);
    assert r in multiset(answer) + multiset(rest);
    assert r in matching;
    SelectOffered(rows, nearby, now, r.event);
    i :| Offered(rows, nearby, now, r.event, i);
  }

  /** Every event on offer is returned, unless the answer is full and nothing in it is farther away. */
  lemma OfferedIsAnswered(rows: seq<Event>, nearby: seq<VenueDistance>, limit: nat, now: int, e: Event, i: nat)
    requires Offered(rows, nearby, now, e, i)
    ensures var answer := Search(rows, nearby, limit, now);
      || (exists r :: r in answer && r.event == e)
      || (|answer| == limit && forall a :: a in answer ==> a.distanceKm <= nearby[i].distanceKm)
  {
    var rest := SearchIsTopK(rows, nearby, limit, now);
    var answer, matching := Search(rows, nearby, limit, now), Select(rows, Distances(nearby), now);
    SelectOffered(rows, nearby, now, e);
    var r :| r in matching && r.event == e;
    assert r in multiset(matching);
    assert r in answer || r in rest;
  }
}
