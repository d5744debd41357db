/**
 * The global store of src/store/store.ts: the search fields, the route
 * job's token, the resolved route and the single error message. The store
 * is one mutable object; each setter replaces one top-level slice and
 * leaves the others as they were.
 */
module Store {
  import opened Wrappers

  /** How many times a job still "in progress" is polled again. */
  const RETRY_TIMES: int := 3

  /** A position as the map takes it; coordinates are carried, never computed with. */
  type Point = (real, real)

  /** One search input: its text and the validation messages shown under it. */
  datatype Field = Field(value: string, error: seq<string>)

  /** The two keys of `search`. */
  datatype Key = Origin | Destination

  /** `Object.keys(state.search)`: the keys in declaration order. */
  const KEYS: seq<Key> := [Origin, Destination]

  datatype Search = Search(origin: Field, destination: Field) {

    function Get(k: Key): Field {
      match k
      case Origin => origin
      case Destination => destination
    }

    /** `{...search, [k]: f}` */
    function Set(k: Key, f: Field): (r: Search)
      ensures r.Get(k) == f
      ensures forall j :: j != k ==> r.Get(j) == Get(j)
    {
      match k
      case Origin => this.(origin := f)
      case Destination => this.(destination := f)
    }

    /** `{...search, ...m}`: the keys of `m` take its fields, the other keys keep theirs. */
    function Overlay(m: map<Key, Field>): (r: Search)
      ensures forall k :: r.Get(k) == if k in m then m[k] else Get(k)
    {
      Search(if Origin in m then m[Origin] else origin,
             if Destination in m then m[Destination] else destination)
    }
  }

  const DEFAULT_SEARCH: Search := Search(Field("", []), Field("", []))

  /** The route job being polled; `stamp` is the cache-busting timestamp of the current poll. */
  datatype GeoToken = GeoToken(token: string, stamp: string, retry: int)

  /** The argument of `setGeoToken`: any subset of the token's keys. */
  datatype TokenPatch = TokenPatch(token: Option<string>, stamp: Option<string>, retry: Option<int>)

  /** `{...geoToken, ...patch}`: every key the patch supplies is replaced, every other key is kept. */
  function MergeToken(t: GeoToken, p: TokenPatch): (r: GeoToken)
    ensures r.token == p.token.GetOr(t.token)
    ensures r.stamp == p.stamp.GetOr(t.stamp)
    ensures r.retry == p.retry.GetOr(t.retry)
    ensures p == TokenPatch(None, None, None) ==> r == t
  {
    GeoToken(if p.token.Some? then p.token.value else t.token,
             if p.stamp.Some? then p.stamp.value else t.stamp,
             if p.retry.Some? then p.retry.value else t.retry)
  }

  /** The resolved route: its path in map order and the totals the backend reported. */
  datatype GeoData = GeoData(path: seq<Point>, totalDistance: real, totalTime: real)

  /** `StoreState`, as a value. */
  datatype StoreState = StoreState(search: Search, geoToken: GeoToken, geoData: Option<GeoData>, errMsg: string)

  const INITIAL_STATE: StoreState :=
    StoreState(DEFAULT_SEARCH, GeoToken("", "", RETRY_TIMES), None, "")

  /** A patch naming only the stamp and the retry count keeps the job's token. */
  lemma TokenSurvivesStampRetryPatch(t: GeoToken, stamp: string, retry: int)
    ensures MergeToken(t, TokenPatch(None, Some(stamp), Some(retry))) == GeoToken(t.token, stamp, retry)
  {
  }

  /** The store object; every method replaces one slice and nothing else. */
  class RouteStore {
    var search: Search
    var geoToken: GeoToken
    var geoData: Option<GeoData>
    var errMsg: string

    /** The whole state, as the value the store's readers see. */
    function Snapshot(): (s: StoreState)
      reads this
      ensures s.search == search && s.geoToken == geoToken && s.geoData == geoData && s.errMsg == errMsg
    {
      StoreState(search, geoToken, geoData, errMsg)
    }

    /** The store as `create` sets it up: empty fields, no token, full retry budget, no route, no message. */
    constructor ()
      ensures Snapshot() == INITIAL_STATE
      ensures search.origin == Field("", []) && search.destination == Field("", [])
      ensures geoToken == GeoToken("", "", RETRY_TIMES) && geoData == None && errMsg == ""
    {
      search := DEFAULT_SEARCH;
      geoToken := GeoToken("", "", RETRY_TIMES);
      geoData := None;
      errMsg := "";
    }

    /** `setSearchValue`: the field gets the new text and loses its messages; the other field and slices stay. */
    method SetSearchValue(key: Key, value: string)
      modifies this
      ensures search.Get(key) == Field(value, [])
      ensures forall k :: k != key ==> search.Get(k) == old(search).Get(k)
      ensures geoToken == old(geoToken) && geoData == old(geoData) && errMsg == old(errMsg)
    {
      search := search.Set(key, Field(value, []));
    }

    /** The `setState` of `checkIsInvalid`: the fields named in `fields` are replaced, the rest stay. */
    method MergeSearch(fields: map<Key, Field>)
      modifies this
      ensures search == old(search).Overlay(fields)
      ensures geoToken == old(geoToken) && geoData == old(geoData) && errMsg == old(errMsg)
    {
      search := search.Overlay(fields);
    }

    /** `resetSearch`: both fields back to empty, nothing else touched. */
    method ResetSearch()
      modifies this
      ensures search == DEFAULT_SEARCH
      ensures geoToken == old(geoToken) && geoData == old(geoData) && errMsg == old(errMsg)
    {
      search := DEFAULT_SEARCH;
    }

    /** `setGeoToken`: a shallow merge of the supplied keys into the token. */
    method SetGeoToken(patch: TokenPatch)
      modifies this
      ensures geoToken == MergeToken(old(geoToken), patch)
      ensures search == old(search) && geoData == old(geoData) && errMsg == old(errMsg)
    {
      geoToken := MergeToken(geoToken, patch);
    }

    /** `setGeoData` */
    method SetGeoData(data: GeoData)
      modifies this
      ensures geoData == Some(data)
      ensures search == old(search) && geoToken == old(geoToken) && errMsg == old(errMsg)
    {
      geoData := Some(data);
    }

    /** `resetGeoData` */
    method ResetGeoData()
      modifies this
      ensures geoData == None
      ensures search == old(search) && geoToken == old(geoToken) && errMsg == old(errMsg)
    {
      geoData := None;
    }

    /** `setErrMsg` */
    method SetErrMsg(msg: string)
      modifies this
      ensures errMsg == msg
      ensures search == old(search) && geoToken == old(geoToken) && geoData == old(geoData)
    {
      errMsg := msg;
    }
  }
}
