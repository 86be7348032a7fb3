/** The parcel layer component `CustomVectorTileLayer`
    (src/layers/CustomVectorTileLayer.tsx): choosing the tile URL from the tile
    server's capabilities, and adding / removing the vector tile layer on the shared map. */
module ParcelLayer {

  import opened Wrappers

  /** The capabilities entry whose tiles hold the cadastral parcels. */
  const ParcelsMapName: string := "cadastral_parcels"

  /** One map described by the capabilities document: its name and its tile-URL templates. */
  datatype TileMap = TileMap(name: string, tiles: seq<string>)

  /** How the capabilities request ends. `Failed` stands for every exception the request
      raises (the `fetch` rejecting, the body not parsing, the body lacking `maps`);
      `NotOk` for a response whose status is not ok; `Ok` for a parsed list of maps. */
  datatype CapabilitiesResponse = Failed | NotOk | Ok(maps: seq<TileMap>)

  /** `Array.prototype.find` by name, as an index: the first entry with the name, if any. */
  function FindByName(maps: seq<TileMap>, name: string): (r: Option<nat>)
    ensures r.Some? ==> r.value < |maps| && maps[r.value].name == name
    ensures r.Some? ==> forall j :: 0 <= j < r.value ==> maps[j].name != name
    ensures r.None? ==> forall j :: 0 <= j < |maps| ==> maps[j].name != name
  {
    if maps == [] then None
    else if maps[0].name == name then Some(0)
    else match FindByName(maps[1..], name)
      case None => None
      case Some(i) => Some(i + 1)
  }

  /** The tile URL of the parcels layer: the first URL template of the first entry
      named `cadastral_parcels`, when that entry has any. */
  function ParcelsTileUrl(maps: seq<TileMap>): (r: Option<string>)
    ensures r.Some? <==> FindByName(maps, ParcelsMapName).Some?
                         && |maps[FindByName(maps, ParcelsMapName).value].tiles| > 0
  {
    match FindByName(maps, ParcelsMapName)
    case None => None
    case Some(i) => if |maps[i].tiles| > 0 then Some(maps[i].tiles[0]) else None
  }

  /** The decision is made by the first entry with the parcels name alone: whatever
      entries come after it, even ones with the same name and tiles, are ignored. */
  lemma {:induction false} FirstParcelsEntryDecides(before: seq<TileMap>, entry: TileMap, after: seq<TileMap>)
    requires forall j :: 0 <= j < |before| ==> before[j].name != ParcelsMapName
    requires entry.name == ParcelsMapName
    ensures ParcelsTileUrl(before + [entry] + after)
         == if |entry.tiles| > 0 then Some(entry.tiles[0]) else None
  {
    var maps := before + [entry] + after;
    var i := FindByName(maps, ParcelsMapName);
    assert maps[|before|] == entry;
    assert forall j :: 0 <= j < |before| ==> maps[j] == before[j];
  }

  /** Without any entry named `cadastral_parcels` there is no URL. */
  lemma NoParcelsEntryNoUrl(maps: seq<TileMap>)
    requires forall j :: 0 <= j < |maps| ==> maps[j].name != ParcelsMapName
    ensures ParcelsTileUrl(maps) == None
  {
  }

  /** Any URL chosen is the first template of an entry carrying the parcels name. */
  lemma ChosenUrlIsFirstTemplate(maps: seq<TileMap>)
    requires ParcelsTileUrl(maps).Some?
    ensures exists i :: 0 <= i < |maps| && maps[i].name == ParcelsMapName
                        && |maps[i].tiles| > 0 && maps[i].tiles[0] == ParcelsTileUrl(maps).value
  {
    var i := FindByName(maps, ParcelsMapName).value;
    assert maps[i].tiles[0] == ParcelsTileUrl(maps).value;
  }

  /** The component's `tileUrl` state after the capabilities request settles: set only when
      a URL was found, otherwise left as it was (nothing is raised to the caller). */
  function TileUrlAfter(prior: Option<string>, response: CapabilitiesResponse): (r: Option<string>)
    ensures !response.Ok? ==> r == prior
    ensures response.Ok? && ParcelsTileUrl(response.maps).None? ==> r == prior
    ensures response.Ok? && ParcelsTileUrl(response.maps).Some? ==> r == ParcelsTileUrl(response.maps)
  {
    match response
    case Ok(maps) =>
      (match ParcelsTileUrl(maps)
       case Some(url) => Some(url)
       case None => prior)
    case _ => prior
  }

  /** The layer effect's guard `if (!map || !tileUrl) return;`. JavaScript treats the empty
      string as false, so an empty URL template never yields a layer. */
  function CanAttach(present: bool, tileUrl: Option<string>): (r: bool)
    ensures r ==> present && tileUrl.Some?
    ensures tileUrl == Some("") ==> !r
    ensures present && tileUrl.Some? && |tileUrl.value| > 0 ==> r
  {
    present && tileUrl.Some? && tileUrl.value != ""
  }

  /** `Collection.remove` of the map's layer collection: the first occurrence goes, the rest
      keeps its order; a layer that is not there leaves the list as it is. */
  function RemoveFirst<T(==)>(s: seq<T>, x: T): (r: seq<T>)
    ensures x !in s ==> r == s
    ensures x in s ==> |r| == |s| - 1
  {
    if s == [] then []
    else
      assert s == [s[0]] + s[1..];
      if s[0] == x then s[1..]
      else [s[0]] + RemoveFirst(s[1..], x)
  }

  /** Removing a layer from a list where it first occurs right after `before` leaves
      exactly `before` followed by everything after it, whatever that later part holds. */
  lemma {:induction false} RemoveFirstAfterAppend<T>(before: seq<T>, x: T, after: seq<T>)
    requires x !in before
    ensures RemoveFirst(before + [x] + after, x) == before + after
  {
    var s := before + [x] + after;
    if before == [] {
      assert s == [x] + after;
    } else {
      assert s[0] == before[0] != x;
      assert s[1..] == before[1..] + [x] + after;
      RemoveFirstAfterAppend(before[1..], x, after);
      assert before + after == [before[0]] + (before[1..] + after);
    }
  }

  /** A vector tile layer; each `new VectorTileLayer(...)` is a distinct object. */
  class Layer {
    const url: string

    constructor (url: string)
      ensures this.url == url
    {
      this.url := url;
    }
  }

  /** The OpenLayers map shared through the map context, reduced to its layer list. */
  class OlMap {
    var layers: seq<Layer>

    constructor (layers: seq<Layer>)
      ensures this.layers == layers
    {
      this.layers := layers;
    }

    /** `map.addLayer`: the layer goes on top of the others. */
    method AddLayer(layer: Layer)
      modifies this
      ensures layers == old(layers) + [layer]
    {
      layers := layers + [layer];
    }

    /** `map.removeLayer`: the layer's first occurrence is taken out. */
    method RemoveLayer(layer: Layer)
      modifies this
      ensures layers == RemoveFirst(old(layers), layer)
    {
      layers := RemoveFirst(layers, layer);
    }
  }

  /** The cleanup the layer effect returned, still to be run by the next re-run or unmount:
      none, or removal of the layer it added from the map it added it to. */
  datatype Cleanup = NoCleanup | Detach(target: OlMap, layer: Layer)

  /** The component: its `tileUrl` state, whether the one capabilities request issued at
      mount is still outstanding, and the pending cleanup of the layer effect. React's
      scheduling, as in a production build, is replaced by explicit calls to the effect
      bodies and cleanups; StrictMode's development-only second capabilities request is
      not modelled. */
  class CustomVectorTileLayer {
    var tileUrl: Option<string>
    var lookupPending: bool
    var cleanup: Cleanup

    /** Mount: `tileUrl` starts as null, the capabilities effect (empty dependencies) issues
        its request, a single one in a production build, and the layer effect has nothing to
        clean up yet. */
    constructor ()
      ensures tileUrl == None && lookupPending && cleanup == NoCleanup
    {
      tileUrl := None;
      lookupPending := true;
      cleanup := NoCleanup;
    }

    /** The capabilities request settles. In a production build it was issued once at mount,
        so it settles once. */
    method ResolveCapabilities(response: CapabilitiesResponse)
      requires lookupPending
      modifies this
      ensures !lookupPending
      ensures tileUrl == TileUrlAfter(old(tileUrl), response)
      ensures cleanup == old(cleanup)
    {
      lookupPending := false;
      if response.Ok? {
        var url := ParcelsTileUrl(response.maps);
        if url.Some? {
          tileUrl := Some(url.value);
        }
      }
    }

    /** The layer effect, run with the map the context holds at that render (null while the
        map is not ready). React first runs the previous cleanup, so none is pending. */
    method RunLayerEffect(target: OlMap?) returns (added: Layer?)
      requires cleanup == NoCleanup
      modifies this, target
      ensures tileUrl == old(tileUrl) && lookupPending == old(lookupPending)
      ensures CanAttach(target != null, tileUrl) ==>
                target != null && added != null && fresh(added) && added.url == tileUrl.value
                && target.layers == old(target.layers) + [added]
                && cleanup == Detach(target, added)
      ensures !CanAttach(target != null, tileUrl) ==>
                added == null && cleanup == NoCleanup
                && (target != null ==> target.layers == old(target.layers))
    {
      added := null;
      if target == null || tileUrl.None? || tileUrl.value == "" {
        return;
      }
      var layer := new Layer(tileUrl.value);
      target.AddLayer(layer);
      cleanup := Detach(target, layer);
      added := layer;
    }

    /** The layer effect's cleanup, run before the effect re-runs and at unmount: it
        removes the layer it added from the map it added it to, and nothing else. */
    method RunLayerCleanup()
      modifies this, if cleanup.Detach? then {cleanup.target} else {}
      ensures cleanup == NoCleanup
      ensures tileUrl == old(tileUrl) && lookupPending == old(lookupPending)
      ensures old(cleanup).Detach? ==>
                old(cleanup).target.layers == RemoveFirst(old(cleanup.target.layers), old(cleanup).layer)
    {
      if cleanup.Detach? {
        cleanup.target.RemoveLayer(cleanup.layer);
      }
      cleanup := NoCleanup;
    }
  }

  /** The layer effect's runs at mount, which React StrictMode in development repeats as
      setup, cleanup, setup. At mount `tileUrl` is still null, so whatever map the context
      holds, both runs stop at the guard and neither adds a layer. */
  method MountTimeLayerEffectRuns(target: OlMap?) returns (first: Layer?, second: Layer?)
    modifies target
    ensures first == null && second == null
    ensures target != null ==> target.layers == old(target.layers)
  {
    var component := new CustomVectorTileLayer();
    first := component.RunLayerEffect(target);
    component.RunLayerCleanup();
    second := component.RunLayerEffect(target);
  }

  /** One mount of the component on a ready map: the capabilities request settles, the
      layer effect runs, other components may add layers meanwhile, and the component
      unmounts. Exactly one layer is added, with the chosen URL, when the URL is usable;
      afterwards the map holds exactly the layers it would hold had the component never
      been mounted. `attachedLayers` is the map's layer list right after the attach. */
  method MountThenUnmount(target: OlMap, response: CapabilitiesResponse, others: seq<Layer>)
    returns (added: Layer?, ghost attachedLayers: seq<Layer>)
    modifies target
    ensures (added != null) == CanAttach(true, TileUrlAfter(None, response))
    ensures added != null ==> added.url == TileUrlAfter(None, response).value
    ensures added != null ==> attachedLayers == old(target.layers) + [added]
    ensures added == null ==> attachedLayers == old(target.layers)
    ensures target.layers == old(target.layers) + others
  {
    var component := new CustomVectorTileLayer();
    var before := target.layers;
    component.ResolveCapabilities(response);
    added := component.RunLayerEffect(target);
    attachedLayers := target.layers;
    target.layers := target.layers + others;
    component.RunLayerCleanup();
    if added != null {
      var layer: Layer := added;
      assert layer !in before;
      RemoveFirstAfterAppend(before, layer, others);
    }
  }
}
