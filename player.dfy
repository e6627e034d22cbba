/**
 * A player profile: its restaurants, in the order they were opened, and the
 * id of the one being played, which always names a restaurant of the list.
 */
module Players {
  import opened Wrappers
  import opened Seqs
  import opened Restaurants

  /** The personal settings a new profile starts with. */
  datatype Settings = Settings(volume: real, language: string, notifications: bool)

  const DEFAULT_SETTINGS: Settings := Settings(0.8, "pt-BR", true)

  /** The ids of the restaurants `rs`, in order. */
  function IdsOf(rs: seq<Restaurant>): (ids: seq<string>)
    ensures |ids| == |rs| && forall i :: 0 <= i < |rs| ==> ids[i] == rs[i].restaurantId
  {
    seq(|rs|, i requires 0 <= i < |rs| => rs[i].restaurantId)
  }

  /**
   * The restaurant `get_active_restaurant` returns: the first one whose id is
   * `id`, or none.
   */
  function Active(rs: seq<Restaurant>, id: string): (r: Option<Restaurant>)
    ensures r.Some? <==> id in IdsOf(rs)
    ensures r.Some? ==> r.value in rs && r.value.restaurantId == id
  {
    var k := IndexOf(IdsOf(rs), id);
    if k < |rs| then Some(rs[k]) else None
  }

  /**
   * Opening a restaurant whose id is new makes it the one `get_active_restaurant`
   * finds, and the earlier ones stay findable under their ids.
   */
  lemma ActiveAfterAdd(rs: seq<Restaurant>, r: Restaurant)
    requires r.restaurantId !in IdsOf(rs)
    ensures Active(rs + [r], r.restaurantId) == Some(r)
    ensures forall id :: id in IdsOf(rs) ==> Active(rs + [r], id) == Active(rs, id)
  {
    assert IdsOf(rs + [r]) == IdsOf(rs) + [r.restaurantId];
    IndexOfAppended(IdsOf(rs), r.restaurantId);
    forall id | id in IdsOf(rs)
      ensures Active(rs + [r], id) == Active(rs, id)
    {
      IndexOfPrefix(IdsOf(rs), [r.restaurantId], id);
    }
  }

  /** A value present in `s` is found at the same place in `s + t`. */
  lemma {:induction false} IndexOfPrefix(s: seq<string>, t: seq<string>, x: string)
    requires x in s
    ensures IndexOf(s + t, x) == IndexOf(s, x)
  {
    if s[0] != x {
      assert (s + t)[1..] == s[1..] + t;
      IndexOfPrefix(s[1..], t, x);
    }
  }

  class Player {
    const nickname: string
    /** `str(uuid.uuid4())`, drawn by the caller. */
    const playerId: string
    /** `datetime.now().isoformat()`, read by the caller. */
    const createdAt: string
    var restaurants: seq<Restaurant>
    var activeRestaurantId: string
    var settings: Settings

    /** The active id names one of the player's restaurants. */
    ghost predicate Valid()
      reads this
    {
      activeRestaurantId in IdsOf(restaurants)
    }

    /**
     * A new profile with one restaurant, `restaurantName`, which is the active
     * one; `playerId` and `restaurantId` are the uuids the caller drew, `now`
     * the time read for the profile and `restaurantNow` the later reading the
     * restaurant takes for itself.
     */
    constructor (nickname: string, restaurantName: string, playerId: string, restaurantId: string, now: string, restaurantNow: string)
      ensures Valid()
      ensures this.nickname == nickname && this.playerId == playerId && createdAt == now
      ensures |restaurants| == 1 && fresh(restaurants[0])
      ensures restaurants[0].name == restaurantName && restaurants[0].restaurantId == restaurantId
      ensures restaurants[0].createdAt == restaurantNow && restaurants[0].Opened()
      ensures activeRestaurantId == restaurantId && settings == DEFAULT_SETTINGS
    {
      this.nickname := nickname;
      this.playerId := playerId;
      createdAt := now;
      var first := new Restaurant(restaurantName, restaurantId, restaurantNow);
      restaurants := [first];
      activeRestaurantId := first.restaurantId;
      settings := DEFAULT_SETTINGS;
      new;
      assert IdsOf(restaurants)[0] == restaurantId;
    }

    /** `get_active_restaurant`: the first restaurant with the active id, or none; there is one while the profile is valid. */
    method GetActiveRestaurant() returns (r: Option<Restaurant>)
      ensures r == Active(restaurants, activeRestaurantId)
      ensures Valid() ==> r.Some?
    {
      var i := 0;
      while i < |restaurants|
        invariant 0 <= i <= |restaurants|
        invariant activeRestaurantId !in IdsOf(restaurants)[..i]
      {
        if restaurants[i].restaurantId == activeRestaurantId {
          assert IdsOf(restaurants)[i] == activeRestaurantId;
          return Some(restaurants[i]);
        }
        assert IdsOf(restaurants)[..i + 1] == IdsOf(restaurants)[..i] + [restaurants[i].restaurantId];
        i := i + 1;
      }
      assert IdsOf(restaurants)[..i] == IdsOf(restaurants);
      return None;
    }

    /** `add_restaurant`: the new restaurant is appended and becomes the active one. */
    method AddRestaurant(name: string, restaurantId: string, now: string)
      modifies this`restaurants, this`activeRestaurantId
      ensures Valid()
      ensures |restaurants| == |old(restaurants)| + 1 && restaurants[..|old(restaurants)|] == old(restaurants)
      ensures fresh(restaurants[|old(restaurants)|])
      ensures restaurants[|old(restaurants)|].name == name && restaurants[|old(restaurants)|].restaurantId == restaurantId
      ensures restaurants[|old(restaurants)|].createdAt == now && restaurants[|old(restaurants)|].Opened()
      ensures activeRestaurantId == restaurantId
    {
      var r := new Restaurant(name, restaurantId, now);
      restaurants := restaurants + [r];
      activeRestaurantId := r.restaurantId;
      assert IdsOf(restaurants)[|restaurants| - 1] == restaurantId;
    }

    /** `switch_restaurant`: the active id changes only to the id of one of the player's restaurants. */
    method SwitchRestaurant(restaurantId: string)
      modifies this`activeRestaurantId
      ensures activeRestaurantId == if restaurantId in IdsOf(restaurants) then restaurantId else old(activeRestaurantId)
      ensures old(Valid()) ==> Valid()
    {
      var i := 0;
      var found := false;
      while i < |restaurants| && !found
        invariant 0 <= i <= |restaurants|
        invariant found <==> restaurantId in IdsOf(restaurants)[..i]
      {
        found := restaurants[i].restaurantId == restaurantId;
        assert IdsOf(restaurants)[..i + 1] == IdsOf(restaurants)[..i] + [restaurants[i].restaurantId];
        i := i + 1;
      }
      if !found {
        assert IdsOf(restaurants)[..i] == IdsOf(restaurants);
      }
      if found {
        activeRestaurantId := restaurantId;
      }
    }
  }
}
