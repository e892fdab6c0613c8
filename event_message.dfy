/**
 * The wire message built by `send_record`: the payload's bytes wrapped in an
 * EventData, and the user property map filled from the configured property
 * bag, each key and value interpolated against the event.
 */
module EventMessage {

  import opened Wrappers

  newtype byte = b: int | 0 <= b < 256

  /** A pair of the property bag: a key template and a value template. */
  type Template = (string, string)

  /** A snapshot of an EventData as it is handed to `sendSync`. */
  datatype Message = Message(body: seq<byte>, properties: map<string, string>)

  /** The SDK's EventData: a fixed body and a property map that is filled in place. */
  class EventData {
    const body: seq<byte>
    var properties: map<string, string>

    /** `EventData.create(ByteBuffer::wrap(bytes))`: an event with no properties yet. */
    constructor Create(bytes: seq<byte>)
      ensures body == bytes && properties == map[]
    {
      body := bytes;
      properties := map[];
    }

    /** `getProperties().put(key, value)`: a later put on the same key overwrites. */
    method Put(key: string, value: string)
      modifies this
      ensures properties == old(properties)[key := value]
    {
      properties := properties[key := value];
    }

    /** The event as `sendSync` receives it. */
    function Snapshot(): (m: Message)
      reads this
    {
      Message(body, properties)
    }
  }

  /**
   * The left-to-right fold of `put(sprintf(key), sprintf(value))` over the bag,
   * starting from the map m. Defined on the last pair, so that a loop that has
   * handled the first i pairs holds PutAll(m, bag[..i], interpolate).
   */
  function PutAll(m: map<string, string>, bag: seq<Template>, interpolate: string -> string): (r: map<string, string>)
  {
    if bag == [] then m
    else
      var last := bag[|bag| - 1];
      PutAll(m, bag[..|bag| - 1], interpolate)[interpolate(last.0) := interpolate(last.1)]
  }

  /** The property map of a fresh EventData: empty for a nil bag. */
  function PropertyMap(bag: Option<seq<Template>>, interpolate: string -> string): (props: map<string, string>)
  {
    if bag.None? then map[] else PutAll(map[], bag.value, interpolate)
  }

  /** Index of the last pair of the bag whose key interpolates to k, if any. */
  function LastPairFor(bag: seq<Template>, interpolate: string -> string, k: string): (r: Option<nat>)
    ensures r.Some? ==> r.value < |bag| && interpolate(bag[r.value].0) == k
    ensures r.Some? ==> forall j :: r.value < j < |bag| ==> interpolate(bag[j].0) != k
    ensures r.None? ==> forall j :: 0 <= j < |bag| ==> interpolate(bag[j].0) != k
  {
    if bag == [] then None
    else if interpolate(bag[|bag| - 1].0) == k then Some(|bag| - 1)
    else LastPairFor(bag[..|bag| - 1], interpolate, k)
  }

  /**
   * The property map holds, for every interpolated key, the interpolated value
   * of the LAST pair with that key, and the keys of m that no pair touches.
   */
  lemma {:induction false} PutAllLastWins(m: map<string, string>, bag: seq<Template>, interpolate: string -> string, k: string)
    ensures var r := PutAll(m, bag, interpolate);
      match LastPairFor(bag, interpolate, k)
      case Some(i) => k in r && r[k] == interpolate(bag[i].1)
      case None => (k in r <==> k in m) && (k in m ==> r[k] == m[k])
  {
    if bag != [] {
      PutAllLastWins(m, bag[..|bag| - 1], interpolate, k);
    }
  }

  /** The keys of the property map: the interpolated keys of the bag, and those of m. */
  lemma {:induction false} PutAllKeys(m: map<string, string>, bag: seq<Template>, interpolate: string -> string)
    ensures PutAll(m, bag, interpolate).Keys == m.Keys + set i | 0 <= i < |bag| :: interpolate(bag[i].0)
  {
    if bag != [] {
      var init := bag[..|bag| - 1];
      PutAllKeys(m, init, interpolate);
      var keys := set i | 0 <= i < |bag| :: interpolate(bag[i].0);
      var initKeys := set i | 0 <= i < |init| :: interpolate(init[i].0);
      assert keys == initKeys + {interpolate(bag[|bag| - 1].0)} by {
        forall x | x in keys ensures x in initKeys + {interpolate(bag[|bag| - 1].0)} {
          var i :| 0 <= i < |bag| && interpolate(bag[i].0) == x;
          if i < |init| { assert init[i] == bag[i]; }
        }
        forall x | x in initKeys ensures x in keys {
          var i :| 0 <= i < |init| && interpolate(init[i].0) == x;
          assert bag[i] == init[i];
        }
      }
    }
  }

  /** A nil bag leaves the map empty; a configured bag yields exactly its interpolated keys. */
  lemma PropertyMapKeys(bag: Option<seq<Template>>, interpolate: string -> string)
    ensures bag.None? ==> PropertyMap(bag, interpolate) == map[]
    ensures bag.Some? ==> PropertyMap(bag, interpolate).Keys == set i | 0 <= i < |bag.value| :: interpolate(bag.value[i].0)
  {
    if bag.Some? {
      PutAllKeys(map[], bag.value, interpolate);
    }
  }

  /**
   * A bag {"k1" => "v1", "k2" => "%{[field]}"} against an event whose field is
   * "X" yields both keys, the second with its interpolated value.
   */
  lemma TwoPairBag(interpolate: string -> string)
    requires interpolate("k1") == "k1" && interpolate("v1") == "v1"
    requires interpolate("k2") == "k2" && interpolate("%{[field]}") == "X"
    ensures PropertyMap(Some([("k1", "v1"), ("k2", "%{[field]}")]), interpolate) == map["k1" := "v1", "k2" := "X"]
  {
    var bag := [("k1", "v1"), ("k2", "%{[field]}")];
    assert bag[..1] == [("k1", "v1")];
    assert bag[..1][..0] == [];
    assert PutAll(map[], bag[..1], interpolate) == map["k1" := "v1"];
    assert PutAll(map[], bag, interpolate) == map["k1" := "v1"]["k2" := "X"];
  }

  /**
   * The `@properties_bag.each` loop of `send_record`: puts every interpolated
   * pair into the event's property map, in the bag's order.
   */
  method AddPropertyBag(eh: EventData, bag: seq<Template>, interpolate: string -> string)
    modifies eh
    ensures eh.properties == PutAll(old(eh.properties), bag, interpolate)
  {
    var i := 0;
    while i < |bag|
      invariant 0 <= i <= |bag|
      invariant eh.properties == PutAll(old(eh.properties), bag[..i], interpolate)
    {
      var (key, value) := bag[i];
      assert bag[..i + 1][..i] == bag[..i];
      eh.Put(interpolate(key), interpolate(value));
      i := i + 1;
    }
    assert bag[..|bag|] == bag;
  }

}
