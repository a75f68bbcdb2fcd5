/** Turning OpenStreetMap elements into an airport layout
    (osm_airport_extractor.py).

    The Overpass HTTP query is not modelled: ExtractAirport receives the
    elements the query would return, already decoded.  The great-circle
    distance is the `haversine` of the Earth parameter, and Python's
    `float(text)` is the parameter `parse` (None where Python raises
    ValueError).  Python exceptions become the Raised outcome; the first one
    raised ends the extraction. */
module Osm {
  import opened Common
  import opened Geometry
  import opened Airport

  datatype Node = Node(id: int, lat: real, lon: real, tags: map<string, string>)

  datatype Way = Way(id: int, nodes: seq<int>, tags: map<string, string>)

  /** One element of the decoded `data['elements']`, with the missing
      `tags` already defaulted to the empty dict. */
  datatype Element = NodeElement(node: Node) | WayElement(way: Way) | OtherElement(kind: string)

  /** The exceptions the extraction can raise. */
  datatype Failure =
    | IndexError          // `way.nodes[0]` of a way without nodes
    | KeyError(id: int)   // a node id that is not among the stored nodes
    | ValueError(text: string) // a tag value `float` cannot read

  datatype Outcome<T> = Ok(value: T) | Raised(failure: Failure)

  function Coords(n: Node): LatLon
  {
    LatLon(n.lat, n.lon)
  }

  /** `tags.get(key, default)`. */
  function TagOr(tags: map<string, string>, key: string, default: string): string
  {
    if key in tags then tags[key] else default
  }

  /** `float(tags.get(key, default))`. */
  function FloatTag(tags: map<string, string>, key: string, default: real, parse: string -> Option<real>): Outcome<real>
  {
    if key !in tags then Ok(default)
    else match parse(tags[key])
      case None => Raised(ValueError(tags[key]))
      case Some(x) => Ok(x)
  }

  /** `tags.get('aeroway') == kind`. */
  predicate HasAeroway(tags: map<string, string>, kind: string)
  {
    "aeroway" in tags && tags["aeroway"] == kind
  }

  // ---------------------------------------------------------------------
  // _process_osm_data

  /** The dict entry a node element makes. */
  function NodeEntry(e: Element): Option<(int, Node)>
  {
    if e.NodeElement? then Some((e.node.id, e.node)) else None
  }

  /** The dict entry a way element makes. */
  function WayEntry(e: Element): Option<(int, Way)>
  {
    if e.WayElement? then Some((e.way.id, e.way)) else None
  }

  /** Every stored node is filed under its own id. */
  predicate NodesById(nodes: map<int, Node>)
  {
    forall k :: k in nodes ==> nodes[k].id == k
  }

  predicate WaysById(ways: map<int, Way>)
  {
    forall k :: k in ways ==> ways[k].id == k
  }

  /** After processing, a node id is stored exactly when it was stored
      before or some node element carries it, and the last node element
      with that id is the one kept; way elements and other elements leave
      the nodes alone. */
  lemma ProcessedNodes(d: Dict<int, Node>, es: seq<Element>, i: nat)
    requires i < |es| && es[i].NodeElement?
    requires forall j :: i < j < |es| && es[j].NodeElement? ==> es[j].node.id != es[i].node.id
    ensures es[i].node.id in PutEach(d, es, NodeEntry).entries
    ensures PutEach(d, es, NodeEntry).entries[es[i].node.id] == es[i].node
  {
    PutEachLastWins(d, es, NodeEntry, i);
  }

  lemma ProcessedNodeIds(d: Dict<int, Node>, es: seq<Element>, k: int)
    ensures k in PutEach(d, es, NodeEntry).entries <==>
      k in d.entries || exists i :: 0 <= i < |es| && es[i].NodeElement? && es[i].node.id == k
    ensures (forall i :: 0 <= i < |es| && es[i].NodeElement? ==> es[i].node.id != k) && k in d.entries ==>
      PutEach(d, es, NodeEntry).entries[k] == d.entries[k]
  {
    PutEachKeys(d, es, NodeEntry, k);
    if exists i :: 0 <= i < |es| && NodeEntry(es[i]).Some? && NodeEntry(es[i]).value.0 == k {
      var i :| 0 <= i < |es| && NodeEntry(es[i]).Some? && NodeEntry(es[i]).value.0 == k;
      assert es[i].NodeElement? && es[i].node.id == k;
    }
  }

  /** The same for ways. */
  lemma ProcessedWays(d: Dict<int, Way>, es: seq<Element>, i: nat)
    requires i < |es| && es[i].WayElement?
    requires forall j :: i < j < |es| && es[j].WayElement? ==> es[j].way.id != es[i].way.id
    ensures es[i].way.id in PutEach(d, es, WayEntry).entries
    ensures PutEach(d, es, WayEntry).entries[es[i].way.id] == es[i].way
  {
    PutEachLastWins(d, es, WayEntry, i);
  }

  lemma ProcessedWayIds(d: Dict<int, Way>, es: seq<Element>, k: int)
    ensures k in PutEach(d, es, WayEntry).entries <==>
      k in d.entries || exists i :: 0 <= i < |es| && es[i].WayElement? && es[i].way.id == k
    ensures (forall i :: 0 <= i < |es| && es[i].WayElement? ==> es[i].way.id != k) && k in d.entries ==>
      PutEach(d, es, WayEntry).entries[k] == d.entries[k]
  {
    PutEachKeys(d, es, WayEntry, k);
    if exists i :: 0 <= i < |es| && WayEntry(es[i]).Some? && WayEntry(es[i]).value.0 == k {
      var i :| 0 <= i < |es| && WayEntry(es[i]).Some? && WayEntry(es[i]).value.0 == k;
      assert es[i].WayElement? && es[i].way.id == k;
    }
  }

  // ---------------------------------------------------------------------
  // _calculate_way_length

  /** The summed haversine distance between consecutive nodes of a way;
      the first id of a consecutive pair that is not stored raises
      KeyError, checked pair by pair from the front. */
  function WayLength(earth: Earth, nodes: map<int, Node>, ids: seq<int>): Outcome<real>
  {
    if |ids| < 2 then Ok(0.0)
    else
      match WayLength(earth, nodes, ids[..|ids| - 1])
      case Raised(f) => Raised(f)
      case Ok(length) =>
        var a := ids[|ids| - 2];
        var b := ids[|ids| - 1];
        if a !in nodes then Raised(KeyError(a))
        else if b !in nodes then Raised(KeyError(b))
        else Ok(length + earth.haversine(Coords(nodes[a]), Coords(nodes[b])))
  }

  /** A failure on a prefix of the way is the failure of the whole way. */
  lemma {:induction false} WayLengthRaisedPersists(earth: Earth, nodes: map<int, Node>, ids: seq<int>, j: nat)
    requires j <= |ids| && WayLength(earth, nodes, ids[..j]).Raised?
    ensures WayLength(earth, nodes, ids) == WayLength(earth, nodes, ids[..j])
    decreases |ids| - j
  {
    if j < |ids| {
      assert ids[..j + 1][..j] == ids[..j];
      WayLengthRaisedPersists(earth, nodes, ids, j + 1);
    } else {
      assert ids[..j] == ids;
    }
  }

  /** A way of two or more nodes has a length exactly when all its nodes
      are stored; otherwise the first missing id is the one raised.  The
      length is never negative when the distance is not. */
  lemma {:induction false} WayLengthOutcome(earth: Earth, nodes: map<int, Node>, ids: seq<int>)
    ensures |ids| >= 2 ==>
      (WayLength(earth, nodes, ids).Ok? <==> forall i :: 0 <= i < |ids| ==> ids[i] in nodes)
    ensures WayLength(earth, nodes, ids).Raised? ==>
      exists j :: 0 <= j < |ids| && ids[j] !in nodes && WayLength(earth, nodes, ids).failure == KeyError(ids[j])
        && forall k :: 0 <= k < j ==> ids[k] in nodes
    ensures (forall a, b :: earth.haversine(a, b) >= 0.0) && WayLength(earth, nodes, ids).Ok? ==>
      WayLength(earth, nodes, ids).value >= 0.0
  {
    if |ids| >= 2 {
      var init := ids[..|ids| - 1];
      WayLengthOutcome(earth, nodes, init);
      assert forall i :: 0 <= i < |init| ==> init[i] == ids[i];
      var r := WayLength(earth, nodes, ids);
      if r.Raised? && WayLength(earth, nodes, init).Ok? {
        var a := ids[|ids| - 2];
        if a in nodes {
          assert forall k :: 0 <= k < |ids| - 1 ==> ids[k] in nodes by {
            if |ids| > 2 {
              assert WayLength(earth, nodes, init).Ok?;
            }
          }
        }
      }
    }
  }

  // ---------------------------------------------------------------------
  // _find_nearest_node

  /** The haversine distance from pos to each node, in order. The ensures
      restate the comprehension: the callers' proofs need them. */
  function NodeDistances(earth: Earth, pos: LatLon, ns: seq<Node>): (ds: seq<real>)
    ensures |ds| == |ns|
    ensures forall i :: 0 <= i < |ns| ==> ds[i] == earth.haversine(pos, Coords(ns[i]))
  {
    seq(|ns|, i requires 0 <= i < |ns| => earth.haversine(pos, Coords(ns[i])))
  }

  /** The first node at the least distance, if that distance is within the
      threshold. */
  function NearestNode(earth: Earth, ns: seq<Node>, pos: LatLon, threshold: real): Option<Node>
  {
    if ns == [] then None
    else
      var ds := NodeDistances(earth, pos, ns);
      var i := FirstArgMin(ds);
      if ds[i] <= threshold then Some(ns[i]) else None
  }

  /** The node returned is within the threshold and no node is closer;
      nothing is returned exactly when every node is beyond the
      threshold. */
  lemma NearestNodeIsNearest(earth: Earth, ns: seq<Node>, pos: LatLon, threshold: real)
    ensures NearestNode(earth, ns, pos, threshold).None? <==>
      forall i :: 0 <= i < |ns| ==> threshold < earth.haversine(pos, Coords(ns[i]))
    ensures NearestNode(earth, ns, pos, threshold).Some? ==>
      var n := NearestNode(earth, ns, pos, threshold).value;
      n in ns && earth.haversine(pos, Coords(n)) <= threshold
      && forall i :: 0 <= i < |ns| ==> earth.haversine(pos, Coords(n)) <= earth.haversine(pos, Coords(ns[i]))
  {
    if ns != [] {
      var ds := NodeDistances(earth, pos, ns);
      var i := FirstArgMin(ds);
      if threshold < ds[i] {
        forall j | 0 <= j < |ns| ensures threshold < earth.haversine(pos, Coords(ns[j])) {
          assert ds[i] <= ds[j];
        }
      } else {
        assert !(threshold < earth.haversine(pos, Coords(ns[i])));
      }
    }
  }

  // ---------------------------------------------------------------------
  // extract_airport: one record per matching element

  /** A runway from a way: its first and last nodes are the thresholds. */
  function RunwayOf(nodes: map<int, Node>, earth: Earth, parse: string -> Option<real>, w: Way): Outcome<Runway>
  {
    if |w.nodes| == 0 then Raised(IndexError)
    else if w.nodes[0] !in nodes then Raised(KeyError(w.nodes[0]))
    else if w.nodes[|w.nodes| - 1] !in nodes then Raised(KeyError(w.nodes[|w.nodes| - 1]))
    else match WayLength(earth, nodes, w.nodes)
      case Raised(f) => Raised(f)
      case Ok(length) =>
        match FloatTag(w.tags, "width", 45.0, parse)
        case Raised(f) => Raised(f)
        case Ok(width) =>
          Ok(Runway(TagOr(w.tags, "ref", ""), Coords(nodes[w.nodes[0]]), Coords(nodes[w.nodes[|w.nodes| - 1]]),
                    width, length, None))
  }

  /** A runway is built exactly when the way has nodes, all of them stored,
      and a readable or absent width; its thresholds are the first and last
      node, its width defaults to 45 meters and its length is the way's. */
  lemma RunwayOfOutcome(nodes: map<int, Node>, earth: Earth, parse: string -> Option<real>, w: Way)
    ensures RunwayOf(nodes, earth, parse, w) == Raised(IndexError) <==> |w.nodes| == 0
    ensures RunwayOf(nodes, earth, parse, w).Ok? <==>
      |w.nodes| > 0 && (forall i :: 0 <= i < |w.nodes| ==> w.nodes[i] in nodes)
      && FloatTag(w.tags, "width", 45.0, parse).Ok?
    ensures RunwayOf(nodes, earth, parse, w).Ok? ==>
      var r := RunwayOf(nodes, earth, parse, w).value;
      r.name == TagOr(w.tags, "ref", "")
      && r.threshold1 == Coords(nodes[w.nodes[0]]) && r.threshold2 == Coords(nodes[w.nodes[|w.nodes| - 1]])
      && r.length == WayLength(earth, nodes, w.nodes).value
      && ("width" !in w.tags ==> r.width == 45.0)
      && r.headingGiven.None?
  {
    WayLengthOutcome(earth, nodes, w.nodes);
  }

  /** The segments between consecutive nodes of a taxiway way, each with
      the width tag read again; errors are raised pair by pair from the
      front. */
  function SegmentsOf(nodes: map<int, Node>, ids: seq<int>, tags: map<string, string>,
                      parse: string -> Option<real>): Outcome<seq<TaxiwaySegment>>
  {
    if |ids| < 2 then Ok([])
    else
      match SegmentsOf(nodes, ids[..|ids| - 1], tags, parse)
      case Raised(f) => Raised(f)
      case Ok(segs) =>
        var a := ids[|ids| - 2];
        var b := ids[|ids| - 1];
        if a !in nodes then Raised(KeyError(a))
        else if b !in nodes then Raised(KeyError(b))
        else match FloatTag(tags, "width", 30.0, parse)
          case Raised(f) => Raised(f)
          case Ok(width) => Ok(segs + [TaxiwaySegment(Coords(nodes[a]), Coords(nodes[b]), width)])
  }

  lemma {:induction false} SegmentsRaisedPersists(nodes: map<int, Node>, ids: seq<int>, tags: map<string, string>,
                                                  parse: string -> Option<real>, j: nat)
    requires j <= |ids| && SegmentsOf(nodes, ids[..j], tags, parse).Raised?
    ensures SegmentsOf(nodes, ids, tags, parse) == SegmentsOf(nodes, ids[..j], tags, parse)
    decreases |ids| - j
  {
    if j < |ids| {
      assert ids[..j + 1][..j] == ids[..j];
      SegmentsRaisedPersists(nodes, ids, tags, parse, j + 1);
    } else {
      assert ids[..j] == ids;
    }
  }

  /** segs[i] runs from node ids[i] to node ids[i + 1], with the given
      width, for every consecutive pair of ids. */
  predicate Joins(nodes: map<int, Node>, ids: seq<int>, segs: seq<TaxiwaySegment>, width: real)
  {
    |segs| == |ids| - 1
    && forall i {:trigger segs[i]} :: 0 <= i < |segs| ==>
      ids[i] in nodes && ids[i + 1] in nodes
      && segs[i] == TaxiwaySegment(Coords(nodes[ids[i]]), Coords(nodes[ids[i + 1]]), width)
  }

  /** A taxiway way of k >= 2 nodes gives k - 1 segments from node i to
      node i + 1, so consecutive segments meet; it fails exactly when a node
      is missing or the width cannot be read, and a way of fewer than two
      nodes gives no segment and never reads the width. */
  lemma {:induction false} SegmentsOfOutcome(nodes: map<int, Node>, ids: seq<int>, tags: map<string, string>,
                                             parse: string -> Option<real>)
    ensures |ids| < 2 ==> SegmentsOf(nodes, ids, tags, parse) == Ok([])
    ensures |ids| >= 2 ==>
      (SegmentsOf(nodes, ids, tags, parse).Ok? <==>
        (forall i :: 0 <= i < |ids| ==> ids[i] in nodes) && FloatTag(tags, "width", 30.0, parse).Ok?)
    ensures SegmentsOf(nodes, ids, tags, parse).Ok? && |ids| >= 2 ==>
      Joins(nodes, ids, SegmentsOf(nodes, ids, tags, parse).value, FloatTag(tags, "width", 30.0, parse).value)
  {
    if |ids| >= 2 {
      var init := ids[..|ids| - 1];
      SegmentsOfOutcome(nodes, init, tags, parse);
      assert forall i :: 0 <= i < |init| ==> init[i] == ids[i];
    }
  }

  /** Consecutive segments of an extracted taxiway share an endpoint, so
      the taxiway is one connected chain. */
  lemma SegmentsAreChained(nodes: map<int, Node>, ids: seq<int>, tags: map<string, string>,
                           parse: string -> Option<real>)
    requires SegmentsOf(nodes, ids, tags, parse).Ok?
    ensures var segs := SegmentsOf(nodes, ids, tags, parse).value;
      forall i :: 0 <= i < |segs| - 1 ==> segs[i].end == segs[i + 1].start && SharesEndpoint(segs[i], segs[i + 1])
  {
    SegmentsOfOutcome(nodes, ids, tags, parse);
  }

  function TaxiwayOf(nodes: map<int, Node>, parse: string -> Option<real>, w: Way): Outcome<Taxiway>
  {
    match SegmentsOf(nodes, w.nodes, w.tags, parse)
    case Raised(f) => Raised(f)
    case Ok(segs) => Ok(Taxiway(TagOr(w.tags, "ref", ""), segs))
  }

  /** A parking position from a node; elevation, heading and size are read
      in that order. */
  function ParkingOf(parse: string -> Option<real>, n: Node): Outcome<ParkingPosition>
  {
    match FloatTag(n.tags, "elevation", 0.0, parse)
    case Raised(f) => Raised(f)
    case Ok(elevation) =>
      match FloatTag(n.tags, "heading", 0.0, parse)
      case Raised(f) => Raised(f)
      case Ok(heading) =>
        match FloatTag(n.tags, "size", 80.0, parse)
        case Raised(f) => Raised(f)
        case Ok(size) =>
          Ok(ParkingPosition(TagOr(n.tags, "ref", ""), Coords(n), TagOr(n.tags, "type", "Commercial"),
                             elevation, heading, size))
  }

  /** The numeric tags of a stand, in the order they are read. */
  const NumericTags: seq<string> := ["elevation", "heading", "size"]

  /** A stand is built exactly when its three numeric tags are absent or
      readable; an unreadable one raises ValueError naming the value of the
      first such tag in reading order; absent tags take the defaults. */
  lemma ParkingOfOutcome(parse: string -> Option<real>, n: Node)
    ensures ParkingOf(parse, n).Ok? <==>
      forall key :: key in NumericTags && key in n.tags ==> parse(n.tags[key]).Some?
    ensures ParkingOf(parse, n).Raised? ==>
      exists i :: 0 <= i < |NumericTags| && NumericTags[i] in n.tags && parse(n.tags[NumericTags[i]]).None?
        && ParkingOf(parse, n).failure == ValueError(n.tags[NumericTags[i]])
        && forall k :: 0 <= k < i && NumericTags[k] in n.tags ==> parse(n.tags[NumericTags[k]]).Some?
    ensures ParkingOf(parse, n).Ok? ==>
      var p := ParkingOf(parse, n).value;
      p.coords == Coords(n)
      && ("ref" !in n.tags ==> p.name == "") && ("type" !in n.tags ==> p.kind == "Commercial")
      && ("elevation" !in n.tags ==> p.elevation == 0.0) && ("heading" !in n.tags ==> p.heading == 0.0)
      && ("size" !in n.tags ==> p.size == 80.0)
  {
    if FloatTag(n.tags, "elevation", 0.0, parse).Raised? {
      assert NumericTags[0] == "elevation";
    } else if FloatTag(n.tags, "heading", 0.0, parse).Raised? {
      assert NumericTags[1] == "heading";
    } else if FloatTag(n.tags, "size", 80.0, parse).Raised? {
      assert NumericTags[2] == "size";
    }
  }

  /** A holding point from a node: it never fails. */
  function HoldingPointOf(n: Node): (r: Outcome<HoldingPoint>)
    ensures r.Ok? && r.value.coords == Coords(n)
    ensures "associated_with" !in n.tags ==> r.value.associatedWith == ""
  {
    Ok(HoldingPoint(TagOr(n.tags, "ref", ""), Coords(n), TagOr(n.tags, "associated_with", "")))
  }

  predicate IsRunwayWay(w: Way) { HasAeroway(w.tags, "runway") }
  predicate IsTaxiwayWay(w: Way) { HasAeroway(w.tags, "taxiway") }
  predicate IsAerodromeWay(w: Way) { HasAeroway(w.tags, "aerodrome") }
  predicate IsParkingNode(n: Node) { HasAeroway(n.tags, "parking_position") }
  predicate IsHoldingNode(n: Node) { HasAeroway(n.tags, "holding_position") }

  function RunwayBuilder(nodes: map<int, Node>, earth: Earth, parse: string -> Option<real>): Way -> Outcome<Runway>
  {
    w => RunwayOf(nodes, earth, parse, w)
  }

  function TaxiwayBuilder(nodes: map<int, Node>, parse: string -> Option<real>): Way -> Outcome<Taxiway>
  {
    w => TaxiwayOf(nodes, parse, w)
  }

  function ParkingBuilder(parse: string -> Option<real>): Node -> Outcome<ParkingPosition>
  {
    n => ParkingOf(parse, n)
  }

  // ---------------------------------------------------------------------
  // The collecting loops of extract_airport

  /** `out = []; for x in xs: if keep(x): out.append(build(x))`, where the
      first build that raises ends the loop. */
  function Collect<T, U>(xs: seq<T>, keep: T -> bool, build: T -> Outcome<U>): Outcome<seq<U>>
  {
    if xs == [] then Ok([])
    else
      var x := xs[|xs| - 1];
      match Collect(xs[..|xs| - 1], keep, build)
      case Raised(f) => Raised(f)
      case Ok(us) =>
        if !keep(x) then Ok(us)
        else match build(x)
          case Raised(f) => Raised(f)
          case Ok(u) => Ok(us + [u])
  }

  lemma {:induction false} CollectRaisedPersists<T, U>(xs: seq<T>, keep: T -> bool, build: T -> Outcome<U>, j: nat)
    requires j <= |xs| && Collect(xs[..j], keep, build).Raised?
    ensures Collect(xs, keep, build) == Collect(xs[..j], keep, build)
    decreases |xs| - j
  {
    if j < |xs| {
      assert xs[..j + 1][..j] == xs[..j];
      CollectRaisedPersists(xs, keep, build, j + 1);
    } else {
      assert xs[..j] == xs;
    }
  }

  /** The loop completes exactly when every kept element builds, and then
      holds one record per kept element, in order; otherwise it raises what
      the first failing kept element raises. */
  lemma {:induction false} CollectOutcome<T, U>(xs: seq<T>, keep: T -> bool, build: T -> Outcome<U>)
    ensures Collect(xs, keep, build).Ok? <==> forall i :: 0 <= i < |xs| && keep(xs[i]) ==> build(xs[i]).Ok?
    ensures Collect(xs, keep, build).Ok? ==>
      var us := Collect(xs, keep, build).value;
      |us| == |Filter(xs, keep)| && forall j :: 0 <= j < |us| ==> build(Filter(xs, keep)[j]) == Ok(us[j])
    ensures Collect(xs, keep, build).Raised? ==>
      exists i :: 0 <= i < |xs| && keep(xs[i]) && build(xs[i]) == Raised(Collect(xs, keep, build).failure)
        && forall k :: 0 <= k < i && keep(xs[k]) ==> build(xs[k]).Ok?
  {
    if xs != [] {
      var init := xs[..|xs| - 1];
      CollectOutcome(init, keep, build);
      assert forall i :: 0 <= i < |init| ==> init[i] == xs[i];
      var x := xs[|xs| - 1];
      var r := Collect(xs, keep, build);
      if r.Raised? && Collect(init, keep, build).Ok? {
        assert keep(x) && build(x) == Raised(r.failure);
        assert forall k :: 0 <= k < |xs| - 1 && keep(xs[k]) ==> build(xs[k]).Ok?;
      }
    }
  }

  // ---------------------------------------------------------------------
  // _find_airport_name

  /** The name tag of the first aerodrome way, or empty. */
  function AirportName(ws: seq<Way>): string
  {
    if ws == [] then ""
    else if IsAerodromeWay(ws[0]) then TagOr(ws[0].tags, "name", "")
    else AirportName(ws[1..])
  }

  /** The name comes from the first aerodrome way, and is empty when
      there is none. */
  lemma {:induction false} AirportNameIsFirst(ws: seq<Way>, i: nat)
    requires i < |ws| && IsAerodromeWay(ws[i])
    requires forall k :: 0 <= k < i ==> !IsAerodromeWay(ws[k])
    ensures AirportName(ws) == TagOr(ws[i].tags, "name", "")
  {
    if i > 0 {
      assert ws[1..][i - 1] == ws[i];
      AirportNameIsFirst(ws[1..], i - 1);
    }
  }

  lemma {:induction false} NoAerodromeNoName(ws: seq<Way>)
    requires forall k :: 0 <= k < |ws| ==> !IsAerodromeWay(ws[k])
    ensures AirportName(ws) == ""
  {
    if ws != [] {
      NoAerodromeNoName(ws[1..]);
    }
  }

  // ---------------------------------------------------------------------
  // extract_airport

  /** The layout extract_airport returns for the stored nodes and ways. */
  function Extracted(icao: string, nodes: Dict<int, Node>, ways: Dict<int, Way>, earth: Earth,
                     parse: string -> Option<real>): Outcome<Layout>
    requires Ordered(nodes) && Ordered(ways)
  {
    var ws := Values(ways);
    var ns := Values(nodes);
    match Collect(ws, IsRunwayWay, RunwayBuilder(nodes.entries, earth, parse))
    case Raised(f) => Raised(f)
    case Ok(runways) =>
      match Collect(ws, IsTaxiwayWay, TaxiwayBuilder(nodes.entries, parse))
      case Raised(f) => Raised(f)
      case Ok(taxiways) =>
        match Collect(ns, IsParkingNode, ParkingBuilder(parse))
        case Raised(f) => Raised(f)
        case Ok(stands) =>
          match Collect(ns, IsHoldingNode, HoldingPointOf)
          case Raised(f) => Raised(f)
          case Ok(holds) => Ok(Layout(AirportName(ws), icao, runways, taxiways, stands, holds))
  }

  /** In an extracted layout every runway comes from a runway way, in the
      order the ways were stored, with that way's end nodes as thresholds,
      and the ICAO code is the one asked for. */
  lemma ExtractedRunways(icao: string, nodes: Dict<int, Node>, ways: Dict<int, Way>, earth: Earth,
                         parse: string -> Option<real>)
    requires Ordered(nodes) && Ordered(ways)
    requires Extracted(icao, nodes, ways, earth, parse).Ok?
    ensures Extracted(icao, nodes, ways, earth, parse).value.icao == icao
    ensures |Extracted(icao, nodes, ways, earth, parse).value.runways| == |Filter(Values(ways), IsRunwayWay)|
    ensures forall j :: 0 <= j < |Filter(Values(ways), IsRunwayWay)| ==>
      RunwayFrom(nodes.entries, Filter(Values(ways), IsRunwayWay)[j], Extracted(icao, nodes, ways, earth, parse).value.runways[j])
    ensures forall j :: 0 <= j < |Filter(Values(ways), IsRunwayWay)| ==>
      Ok(Extracted(icao, nodes, ways, earth, parse).value.runways[j])
        == RunwayOf(nodes.entries, earth, parse, Filter(Values(ways), IsRunwayWay)[j])
  {
    var ws := Values(ways);
    var l := Extracted(icao, nodes, ways, earth, parse).value;
    var rws := Filter(ws, IsRunwayWay);
    CollectOutcome(ws, IsRunwayWay, RunwayBuilder(nodes.entries, earth, parse));
    forall j | 0 <= j < |rws|
      ensures RunwayFrom(nodes.entries, rws[j], l.runways[j])
    {
      RunwayOfOutcome(nodes.entries, earth, parse, rws[j]);
    }
  }

  /** The runway record r has the end nodes of way w as its thresholds. */
  predicate RunwayFrom(nodes: map<int, Node>, w: Way, r: Runway)
  {
    |w.nodes| > 0 && w.nodes[0] in nodes && w.nodes[|w.nodes| - 1] in nodes
    && r.threshold1 == Coords(nodes[w.nodes[0]]) && r.threshold2 == Coords(nodes[w.nodes[|w.nodes| - 1]])
  }

  /** In an extracted layout there is one taxiway per taxiway way, and
      every taxiway is a chain of segments. */
  lemma ExtractedTaxiways(icao: string, nodes: Dict<int, Node>, ways: Dict<int, Way>, earth: Earth,
                          parse: string -> Option<real>)
    requires Ordered(nodes) && Ordered(ways)
    requires Extracted(icao, nodes, ways, earth, parse).Ok?
    ensures |Extracted(icao, nodes, ways, earth, parse).value.taxiways| == |Filter(Values(ways), IsTaxiwayWay)|
    ensures forall j :: 0 <= j < |Filter(Values(ways), IsTaxiwayWay)| ==>
      Ok(Extracted(icao, nodes, ways, earth, parse).value.taxiways[j])
        == TaxiwayOf(nodes.entries, parse, Filter(Values(ways), IsTaxiwayWay)[j])
    ensures forall t, i :: t in Extracted(icao, nodes, ways, earth, parse).value.taxiways && 0 <= i < |t.segments| - 1 ==>
      SharesEndpoint(t.segments[i], t.segments[i + 1])
  {
    var ws := Values(ways);
    var l := Extracted(icao, nodes, ways, earth, parse).value;
    var tws := Filter(ws, IsTaxiwayWay);
    CollectOutcome(ws, IsTaxiwayWay, TaxiwayBuilder(nodes.entries, parse));
    forall t, i | t in l.taxiways && 0 <= i < |t.segments| - 1
      ensures SharesEndpoint(t.segments[i], t.segments[i + 1])
    {
      var j :| 0 <= j < |l.taxiways| && l.taxiways[j] == t;
      SegmentsAreChained(nodes.entries, tws[j].nodes, tws[j].tags, parse);
    }
  }

  /** In an extracted layout there is one parking position per
      parking-position node and one holding point per holding-position
      node, in the order the nodes were stored. */
  lemma ExtractedPoints(icao: string, nodes: Dict<int, Node>, ways: Dict<int, Way>, earth: Earth,
                        parse: string -> Option<real>)
    requires Ordered(nodes) && Ordered(ways)
    requires Extracted(icao, nodes, ways, earth, parse).Ok?
    ensures |Extracted(icao, nodes, ways, earth, parse).value.parkingPositions| == |Filter(Values(nodes), IsParkingNode)|
    ensures |Extracted(icao, nodes, ways, earth, parse).value.holdingPoints| == |Filter(Values(nodes), IsHoldingNode)|
    ensures forall j :: 0 <= j < |Filter(Values(nodes), IsParkingNode)| ==>
      Ok(Extracted(icao, nodes, ways, earth, parse).value.parkingPositions[j])
        == ParkingOf(parse, Filter(Values(nodes), IsParkingNode)[j])
    ensures forall j :: 0 <= j < |Filter(Values(nodes), IsHoldingNode)| ==>
      Ok(Extracted(icao, nodes, ways, earth, parse).value.holdingPoints[j]) == HoldingPointOf(Filter(Values(nodes), IsHoldingNode)[j])
  {
    var ns := Values(nodes);
    CollectOutcome(ns, IsParkingNode, ParkingBuilder(parse));
    CollectOutcome(ns, IsHoldingNode, HoldingPointOf);
  }

  // ---------------------------------------------------------------------
  // The extractor

  class OsmAirportExtractor {
    var nodes: Dict<int, Node>
    var ways: Dict<int, Way>

    /** Both dicts list their keys in insertion order and file every
        element under its own id. */
    predicate Valid()
      reads this
    {
      Ordered(nodes) && Ordered(ways) && NodesById(nodes.entries) && WaysById(ways.entries)
    }

    /** __init__: no nodes and no ways yet. */
    constructor()
      ensures Valid()
      ensures nodes.entries == map[] && ways.entries == map[]
    {
      nodes := EmptyDict();
      ways := EmptyDict();
    }

    /** _process_osm_data: each node element is stored under its id, each
        way element likewise, a later element replacing an earlier one with
        the same id; other elements are skipped. */
    method ProcessOsmData(elements: seq<Element>)
      requires Valid()
      modifies this
      ensures Valid()
      ensures nodes == PutEach(old(nodes), elements, NodeEntry)
      ensures ways == PutEach(old(ways), elements, WayEntry)
    {
      var i := 0;
      while i < |elements|
        invariant 0 <= i <= |elements|
        invariant Valid()
        invariant nodes == PutEach(old(nodes), elements[..i], NodeEntry)
        invariant ways == PutEach(old(ways), elements[..i], WayEntry)
      {
        var element := elements[i];
        PutEachStep(old(nodes), elements, NodeEntry, i);
        PutEachStep(old(ways), elements, WayEntry, i);
        if element.NodeElement? {
          nodes := Put(nodes, element.node.id, element.node);
        } else if element.WayElement? {
          ways := Put(ways, element.way.id, element.way);
        }
        i := i + 1;
      }
      assert elements[..i] == elements;
    }

    /** _calculate_way_length. */
    method CalculateWayLength(earth: Earth, way: Way) returns (r: Outcome<real>)
      requires Valid()
      ensures r == WayLength(earth, nodes.entries, way.nodes)
    {
      var length := 0.0;
      var i := 0;
      while i < |way.nodes| - 1
        invariant 0 <= i
        invariant i + 1 <= |way.nodes| || (i == 0 && length == 0.0)
        invariant i + 1 <= |way.nodes| ==> WayLength(earth, nodes.entries, way.nodes[..i + 1]) == Ok(length)
      {
        assert way.nodes[..i + 2][..i + 1] == way.nodes[..i + 1];
        var id1 := way.nodes[i];
        if id1 !in nodes.entries {
          WayLengthRaisedPersists(earth, nodes.entries, way.nodes, i + 2);
          return Raised(KeyError(id1));
        }
        var id2 := way.nodes[i + 1];
        if id2 !in nodes.entries {
          WayLengthRaisedPersists(earth, nodes.entries, way.nodes, i + 2);
          return Raised(KeyError(id2));
        }
        var node1 := nodes.entries[id1];
        var node2 := nodes.entries[id2];
        length := length + earth.haversine(Coords(node1), Coords(node2));
        i := i + 1;
      }
      if |way.nodes| > 0 {
        assert way.nodes[..i + 1] == way.nodes;
      }
      return Ok(length);
    }

    /** _find_nearest_node: a running strict minimum over the stored nodes,
        starting from infinity (None here), then the threshold test. */
    method FindNearestNode(earth: Earth, lat: real, lon: real, threshold: real) returns (r: Option<Node>)
      requires Valid()
      ensures r == NearestNode(earth, Values(nodes), LatLon(lat, lon), threshold)
    {
      var ns := Values(nodes);
      ghost var ds := NodeDistances(earth, LatLon(lat, lon), ns);
      var nearest: Option<Node> := None;
      var minDistance: Option<real> := None;
      var i := 0;
      while i < |ns|
        invariant 0 <= i <= |ns|
        invariant i == 0 ==> nearest.None? && minDistance.None?
        invariant i > 0 ==> nearest == Some(ns[FirstArgMin(ds[..i])]) && minDistance == Some(ds[FirstArgMin(ds[..i])])
      {
        var distance := earth.haversine(LatLon(lat, lon), Coords(ns[i]));
        if minDistance.None? || distance < minDistance.value {
          minDistance := Some(distance);
          nearest := Some(ns[i]);
        }
        assert ds[..i + 1][..i] == ds[..i];
        i := i + 1;
      }
      if minDistance.Some? && minDistance.value <= threshold {
        assert ds[..i] == ds;
        return nearest;
      }
      if i > 0 {
        assert ds[..i] == ds;
      }
      return None;
    }

    /** The runway loop of extract_airport. */
    method CollectRunways(earth: Earth, parse: string -> Option<real>) returns (r: Outcome<seq<Runway>>)
      requires Valid()
      ensures r == Collect(Values(ways), IsRunwayWay, RunwayBuilder(nodes.entries, earth, parse))
    {
      var ws := Values(ways);
      ghost var build := RunwayBuilder(nodes.entries, earth, parse);
      var runways := [];
      var i := 0;
      while i < |ws|
        invariant 0 <= i <= |ws|
        invariant Collect(ws[..i], IsRunwayWay, build) == Ok(runways)
      {
        var way := ws[i];
        assert ws[..i + 1][..i] == ws[..i];
        if HasAeroway(way.tags, "runway") {
          if |way.nodes| == 0 {
            CollectRaisedPersists(ws, IsRunwayWay, build, i + 1);
            return Raised(IndexError);
          }
          var first := way.nodes[0];
          var last := way.nodes[|way.nodes| - 1];
          if first !in nodes.entries {
            CollectRaisedPersists(ws, IsRunwayWay, build, i + 1);
            return Raised(KeyError(first));
          }
          if last !in nodes.entries {
            CollectRaisedPersists(ws, IsRunwayWay, build, i + 1);
            return Raised(KeyError(last));
          }
          var length := CalculateWayLength(earth, way);
          if length.Raised? {
            CollectRaisedPersists(ws, IsRunwayWay, build, i + 1);
            return Raised(length.failure);
          }
          var width := FloatTag(way.tags, "width", 45.0, parse);
          if width.Raised? {
            CollectRaisedPersists(ws, IsRunwayWay, build, i + 1);
            return Raised(width.failure);
          }
          runways := runways + [Runway(TagOr(way.tags, "ref", ""), Coords(nodes.entries[first]),
                                       Coords(nodes.entries[last]), width.value, length.value, None)];
        }
        i := i + 1;
      }
      assert ws[..i] == ws;
      return Ok(runways);
    }

    /** The segment loop for one taxiway way. */
    method BuildSegments(way: Way, parse: string -> Option<real>) returns (r: Outcome<seq<TaxiwaySegment>>)
      requires Valid()
      ensures r == SegmentsOf(nodes.entries, way.nodes, way.tags, parse)
    {
      var segments := [];
      var i := 0;
      while i < |way.nodes| - 1
        invariant 0 <= i
        invariant i + 1 <= |way.nodes| || (i == 0 && segments == [])
        invariant i + 1 <= |way.nodes| ==> SegmentsOf(nodes.entries, way.nodes[..i + 1], way.tags, parse) == Ok(segments)
      {
        assert way.nodes[..i + 2][..i + 1] == way.nodes[..i + 1];
        var id1 := way.nodes[i];
        if id1 !in nodes.entries {
          SegmentsRaisedPersists(nodes.entries, way.nodes, way.tags, parse, i + 2);
          return Raised(KeyError(id1));
        }
        var id2 := way.nodes[i + 1];
        if id2 !in nodes.entries {
          SegmentsRaisedPersists(nodes.entries, way.nodes, way.tags, parse, i + 2);
          return Raised(KeyError(id2));
        }
        var width := FloatTag(way.tags, "width", 30.0, parse);
        if width.Raised? {
          SegmentsRaisedPersists(nodes.entries, way.nodes, way.tags, parse, i + 2);
          return Raised(width.failure);
        }
        segments := segments + [TaxiwaySegment(Coords(nodes.entries[id1]), Coords(nodes.entries[id2]), width.value)];
        i := i + 1;
      }
      if |way.nodes| > 0 {
        assert way.nodes[..i + 1] == way.nodes;
      }
      return Ok(segments);
    }

    /** The taxiway loop of extract_airport. */
    method CollectTaxiways(parse: string -> Option<real>) returns (r: Outcome<seq<Taxiway>>)
      requires Valid()
      ensures r == Collect(Values(ways), IsTaxiwayWay, TaxiwayBuilder(nodes.entries, parse))
    {
      var ws := Values(ways);
      ghost var build := TaxiwayBuilder(nodes.entries, parse);
      var taxiways := [];
      var i := 0;
      while i < |ws|
        invariant 0 <= i <= |ws|
        invariant Collect(ws[..i], IsTaxiwayWay, build) == Ok(taxiways)
      {
        var way := ws[i];
        assert ws[..i + 1][..i] == ws[..i];
        if HasAeroway(way.tags, "taxiway") {
          var segments := BuildSegments(way, parse);
          if segments.Raised? {
            CollectRaisedPersists(ws, IsTaxiwayWay, build, i + 1);
            return Raised(segments.failure);
          }
          taxiways := taxiways + [Taxiway(TagOr(way.tags, "ref", ""), segments.value)];
        }
        i := i + 1;
      }
      assert ws[..i] == ws;
      return Ok(taxiways);
    }

    /** The parking-position loop of extract_airport. */
    method CollectParking(parse: string -> Option<real>) returns (r: Outcome<seq<ParkingPosition>>)
      requires Valid()
      ensures r == Collect(Values(nodes), IsParkingNode, ParkingBuilder(parse))
    {
      var ns := Values(nodes);
      var stands := [];
      var i := 0;
      while i < |ns|
        invariant 0 <= i <= |ns|
        invariant Collect(ns[..i], IsParkingNode, ParkingBuilder(parse)) == Ok(stands)
      {
        var node := ns[i];
        assert ns[..i + 1][..i] == ns[..i];
        if HasAeroway(node.tags, "parking_position") {
          var stand := ParkingOf(parse, node);
          if stand.Raised? {
            CollectRaisedPersists(ns, IsParkingNode, ParkingBuilder(parse), i + 1);
            return Raised(stand.failure);
          }
          stands := stands + [stand.value];
        }
        i := i + 1;
      }
      assert ns[..i] == ns;
      return Ok(stands);
    }

    /** The holding-point loop of extract_airport. */
    method CollectHoldingPoints() returns (r: seq<HoldingPoint>)
      requires Valid()
      ensures Collect(Values(nodes), IsHoldingNode, HoldingPointOf) == Ok(r)
    {
      var ns := Values(nodes);
      var holds := [];
      var i := 0;
      while i < |ns|
        invariant 0 <= i <= |ns|
        invariant Collect(ns[..i], IsHoldingNode, HoldingPointOf) == Ok(holds)
      {
        var node := ns[i];
        assert ns[..i + 1][..i] == ns[..i];
        if HasAeroway(node.tags, "holding_position") {
          holds := holds + [HoldingPoint(TagOr(node.tags, "ref", ""), Coords(node),
                                         TagOr(node.tags, "associated_with", ""))];
        }
        i := i + 1;
      }
      assert ns[..i] == ns;
      return holds;
    }

    /** _find_airport_name. */
    method FindAirportName() returns (name: string)
      requires Valid()
      ensures name == AirportName(Values(ways))
    {
      var ws := Values(ways);
      var i := 0;
      while i < |ws|
        invariant 0 <= i <= |ws|
        invariant AirportName(ws) == AirportName(ws[i..])
      {
        assert ws[i..][1..] == ws[i + 1..];
        if HasAeroway(ws[i].tags, "aerodrome") {
          return TagOr(ws[i].tags, "name", "");
        }
        i := i + 1;
      }
      return "";
    }

    /** extract_airport on the elements the query returned: store them,
        then collect runways, taxiways, parking positions and holding
        points, and look up the name. */
    method ExtractAirport(icao: string, elements: seq<Element>, earth: Earth, parse: string -> Option<real>)
      returns (r: Outcome<Layout>)
      requires Valid()
      modifies this
      ensures Valid()
      ensures nodes == PutEach(old(nodes), elements, NodeEntry)
      ensures ways == PutEach(old(ways), elements, WayEntry)
      ensures r == Extracted(icao, nodes, ways, earth, parse)
    {
      ProcessOsmData(elements);
      var runways := CollectRunways(earth, parse);
      if runways.Raised? {
        return Raised(runways.failure);
      }
      var taxiways := CollectTaxiways(parse);
      if taxiways.Raised? {
        return Raised(taxiways.failure);
      }
      var stands := CollectParking(parse);
      if stands.Raised? {
        return Raised(stands.failure);
      }
      var holds := CollectHoldingPoints();
      var name := FindAirportName();
      return Ok(Layout(name, icao, runways.value, taxiways.value, stands.value, holds));
    }
  }
}
