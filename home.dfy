/** The home page's room list: the search-and-filter predicate applied to
    the fetched rooms, and the listener count read from a `count` query. */
module HomePage {
  import opened Common
  import opened Seqs
  import opened Text

  datatype Room = Room(id: string, title: string, description: Option<string>, topic: Option<string>, isActive: Option<bool>)

  /** The title, or the description when there is a non-empty one, contains
      the query, both lower-cased. */
  predicate MatchesSearch(room: Room, query: string)
  {
    Contains(Lower(room.title), Lower(query))
    || (TruthyString(room.description) && Contains(Lower(room.description.value), Lower(query)))
  }

  /** The predicate given to `rooms.filter`: 'all' asks only for the search,
      'live' also for an active room, and any other filter for a topic
      exactly equal to it. */
  predicate Keep(room: Room, query: string, activeFilter: string)
  {
    if activeFilter == "all" then MatchesSearch(room, query)
    else if activeFilter == "live" then MatchesSearch(room, query) && TruthyBool(room.isActive)
    else MatchesSearch(room, query) && room.topic == Some(activeFilter)
  }

  function FilteredRooms(rooms: seq<Room>, query: string, activeFilter: string): (r: seq<Room>)
    ensures forall room :: room in r <==> room in rooms && Keep(room, query, activeFilter)
    ensures IsSubsequence(r, rooms)
    ensures forall room :: multiset(r)[room] == if Keep(room, query, activeFilter) then multiset(rooms)[room] else 0
  {
    FilterIsSubsequence(rooms, room => Keep(room, query, activeFilter));
    Filter(rooms, room => Keep(room, query, activeFilter))
  }

  /** Under 'all' a room is listed exactly when it matches the search, and
      a room matches when its lower-cased title holds the lower-cased query
      at some position. */
  lemma AllKeepsMatches(rooms: seq<Room>, query: string)
    ensures forall room :: room in FilteredRooms(rooms, query, "all") <==> room in rooms && MatchesSearch(room, query)
    ensures forall room: Room :: Contains(Lower(room.title), Lower(query)) <==> exists i :: OccursAt(Lower(room.title), Lower(query), i)
  {
    forall room: Room ensures Contains(Lower(room.title), Lower(query)) <==> exists i :: OccursAt(Lower(room.title), Lower(query), i) {
      ContainsIff(Lower(room.title), Lower(query));
    }
  }

  /** 'live' lists the matching rooms whose `is_active` is true. */
  lemma LiveKeepsActiveMatches(rooms: seq<Room>, query: string)
    ensures forall room :: room in FilteredRooms(rooms, query, "live") <==>
      room in rooms && MatchesSearch(room, query) && room.isActive == Some(true)
  {
  }

  /** Any other filter lists the matching rooms whose topic is exactly the filter. */
  lemma TopicKeepsExactTopic(rooms: seq<Room>, query: string, topic: string)
    requires topic != "all" && topic != "live"
    ensures forall room :: room in FilteredRooms(rooms, query, topic) <==>
      room in rooms && MatchesSearch(room, query) && room.topic == Some(topic)
  {
  }

  /** With an empty search box, 'all' lists every room, in order. */
  lemma {:induction false} EmptyQueryKeepsAll(rooms: seq<Room>)
    ensures FilteredRooms(rooms, "", "all") == rooms
  {
    forall room | room in rooms ensures Keep(room, "", "all") {
      ContainsEmpty(Lower(room.title));
    }
    FilterAll(rooms, room => Keep(room, "", "all"));
  }

  /** `listeners ? listeners[0]?.count || 0 : 0`, for a `count` query that
      failed (`None`) or answered with rows whose `count` may be missing. */
  function ListenersCount(listeners: Option<seq<Option<int>>>): (r: int)
    ensures listeners.Some? && |listeners.value| > 0 && listeners.value[0].Some? ==> r == listeners.value[0].value
    ensures !(listeners.Some? && |listeners.value| > 0 && listeners.value[0].Some?) ==> r == 0
  {
    if listeners.None? || |listeners.value| == 0 then 0
    else if listeners.value[0].Some? && listeners.value[0].value != 0 then listeners.value[0].value
    else 0
  }
}
