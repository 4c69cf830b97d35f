/** `JourneyBuilder` and its inner class `Journey`: an ordered route list that
  * is appended to and trimmed in place, and sealed into a journey when every
  * consecutive pair of routes joins. */
module Journeys {
  import opened Wrappers
  import opened Routes
  import opened JourneyIds

  /** The `ArrayList<Route>` object a builder owns; a journey built from the
    * builder holds the very same object. */
  class RouteList {
    var items: seq<Route>

    constructor ()
      ensures items == []
    {
      items := [];
    }
  }

  /** The static field `Journey_ID`, one object shared by every builder; it
    * starts at zero. */
  class JourneyCounter {
    var value: JavaInt

    constructor ()
      ensures value == 0
    {
      value := 0;
    }
  }

  class Journey {
    /** The field `sequence`, returned by `getRoutes`. */
    const sequence: RouteList
    /** The field `ID`, returned by `getID`. */
    const id: string

    /** `Journey()`: numbered with the counter's current value, which is then
      * incremented; the route list is a new empty one. */
    constructor Numbered(counter: JourneyCounter)
      modifies counter
      ensures fresh(sequence) && sequence.items == []
      ensures id == JourneyId(old(counter.value) as int)
      ensures counter.value == Increment(old(counter.value))
    {
      id := JourneyId(counter.value as int);
      counter.value := Increment(counter.value);
      sequence := new RouteList();
    }

    /** `Journey(routes)`: keeps the given list object itself and is numbered
      * with the counter's current value, which is left as it is. */
    constructor Of(routes: RouteList, counter: JourneyCounter)
      ensures sequence == routes
      ensures id == JourneyId(counter.value as int)
    {
      sequence := routes;
      id := JourneyId(counter.value as int);
    }

    /** `getStartSignal`: the source of the first route; an empty journey has
      * none (the Java call throws). */
    function StartSignal(): (s: Option<SignalId>)
      reads sequence
      ensures s.Some? <==> sequence.items != []
      ensures s.Some? ==> s.value == sequence.items[0].source
    {
      if sequence.items == [] then None else Some(sequence.items[0].source)
    }

    /** `getDestinationSignal`: the destination of the last route; an empty
      * journey has none (the Java call throws). */
    function DestinationSignal(): (s: Option<SignalId>)
      reads sequence
      ensures s.Some? <==> sequence.items != []
      ensures s.Some? ==> s.value == sequence.items[|sequence.items| - 1].destination
    {
      if sequence.items == [] then None else Some(sequence.items[|sequence.items| - 1].destination)
    }
  }

  class JourneyBuilder {
    /** The shared counter `Journey_ID`. */
    const counter: JourneyCounter
    /** The field `path`. */
    const path: RouteList

    /** `new JourneyBuilder()`: an empty path. */
    constructor (counter: JourneyCounter)
      ensures this.counter == counter
      ensures fresh(path) && path.items == []
    {
      this.counter := counter;
      path := new RouteList();
    }

    /** `addToJourney(r)`: append one route; answers the new length. */
    method AddToJourney(r: Route) returns (n: nat)
      modifies path
      ensures path.items == old(path.items) + [r]
      ensures n == |path.items| == |old(path.items)| + 1
    {
      path.items := path.items + [r];
      n := |path.items|;
    }

    /** `addToJourney(routes)`: append a batch in order; answers the new length. */
    method AddAllToJourney(routes: seq<Route>) returns (n: nat)
      modifies path
      ensures path.items == old(path.items) + routes
      ensures n == |path.items| == |old(path.items)| + |routes|
    {
      path.items := path.items + routes;
      n := |path.items|;
    }

    /** `getCurrentPath`: the list object itself, not a copy. */
    function CurrentPath(): (l: RouteList)
      ensures l == path
    {
      path
    }

    /** `removeTrailingRoute`: drop the last route; answers the new length. On
      * an empty path the Java call throws and nothing changes. */
    method RemoveTrailingRoute() returns (n: Option<nat>)
      modifies path
      ensures old(path.items) == [] ==> n == None && path.items == []
      ensures old(path.items) != [] ==>
        && path.items == old(path.items)[..|old(path.items)| - 1]
        && n == Some(|old(path.items)| - 1)
    {
      if path.items == [] {
        return None;
      }
      path.items := path.items[..|path.items| - 1];
      n := Some(|path.items|);
    }

    /** `build`: a journey holding the builder's own list when the path is
      * valid, otherwise the error "Invalid Journey". */
    method Build() returns (r: Result<Journey, string>)
      ensures r.Success? <==> ValidPath(path.items)
      ensures r.Success? ==> fresh(r.value) && r.value.sequence == path && r.value.id == JourneyId(counter.value as int)
      ensures r.Failure? ==> r.error == "Invalid Journey"
    {
      var ok := CheckPath(path.items);
      if ok {
        var j := new Journey.Of(path, counter);
        r := Success(j);
      } else {
        r := Failure("Invalid Journey");
      }
    }
  }

  /** Two joining routes build a journey from the first source to the last
    * destination; a break in adjacency or a change of direction is refused. */
  method JoiningRoutesScenario(counter: JourneyCounter)
  {
    var r1 := Route(1, 2, Up);
    var r2 := Route(2, 3, Up);
    var r3 := Route(7, 8, Up);
    var r4 := Route(2, 3, Down);

    var b := new JourneyBuilder(counter);
    var n := b.AddAllToJourney([r1, r2]);
    assert n == 2;
    var built := b.Build();
    assert Joins(r1, r2);
    assert built.Success?;
    assert built.value.StartSignal() == Some(1);
    assert built.value.DestinationSignal() == Some(3);

    var broken := new JourneyBuilder(counter);
    n := broken.AddToJourney(r1);
    n := broken.AddToJourney(r3);
    assert !Joins(broken.path.items[0], broken.path.items[1]);
    var refused := broken.Build();
    assert refused == Failure("Invalid Journey");

    var turned := new JourneyBuilder(counter);
    n := turned.AddAllToJourney([r1, r4]);
    assert !Joins(turned.path.items[0], turned.path.items[1]);
    refused := turned.Build();
    assert refused.Failure?;
  }

  /** A built journey shares the builder's list, so a later append, through
    * the builder or through the list `CurrentPath` hands out, shows up in the
    * journey; and two journeys built without the numbering constructor in
    * between carry the same identifier. */
  method SharedListScenario(counter: JourneyCounter)
  {
    var r1 := Route(1, 2, Up);
    var b := new JourneyBuilder(counter);
    var n := b.AddToJourney(r1);
    var first := b.Build();
    assert first.Success?;
    var j := first.value;

    var second := b.Build();
    assert second.Success? && second.value.id == j.id;

    n := b.AddToJourney(Route(9, 9, Down));
    assert j.sequence.items == [r1, Route(9, 9, Down)];
    assert !Joins(j.sequence.items[0], j.sequence.items[1]);
    assert j.DestinationSignal() == Some(9);

    var l := b.CurrentPath();
    l.items := l.items + [Route(9, 4, Down)];
    assert j.sequence.items == [r1, Route(9, 9, Down), Route(9, 4, Down)];
    assert j.DestinationSignal() == Some(4);
  }
}
