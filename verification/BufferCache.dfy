/**
 The cache of decoded buffers, keyed by source URL and shared by all groups, and the check with which
 `unload` decides whether a buffer is still wanted. `_src` is a list of candidates until `load` picks
 one; as a cache key, a list reads as its members joined with commas.
 */
module BufferCache {
  import opened Wrappers

  /** A URL, or a list of them. Lists are compared by identity, which `list` stands for. */
  datatype Source = Url(url: string) | Candidates(list: int, urls: seq<string>)

  datatype LoadState = Idle | Loading | Ready

  /** What the cache and `unload` look at in a group; `requests` are the downloads not yet decoded. */
  datatype Group = Group(src: Source, state: LoadState, sounds: nat, duration: real, requests: nat)

  function Join(urls: seq<string>): string {
    if urls == [] then "" else if |urls| == 1 then urls[0] else urls[0] + "," + Join(urls[1..])
  }

  /** The property name that `cache[src]` looks up. */
  function Key(src: Source): string {
    match src
    case Url(u) => u
    case Candidates(_, urls) => Join(urls)
  }

  /** `haystack.indexOf(needle) >= 0` on strings. */
  predicate Contains(haystack: string, needle: string) {
    exists i :: 0 <= i <= |haystack| && needle <= haystack[i..]
  }

  /** What `unload` of a group with source `mine` counts as another group still using the buffer. */
  predicate StillUsed(mine: Source, other: Source) {
    other == mine ||
    match mine
    case Url(u) => Contains(u, Key(other))
    case Candidates(_, urls) => other.Url? && other.url in urls
  }

  /** A group that has picked its URL recognises every other group with the same buffer. */
  lemma PickedRecognises(mine: Source, other: Source)
    requires mine.Url? && Key(other) == Key(mine)
    ensures StillUsed(mine, other)
  {
    assert mine.url <= mine.url[0..];
  }

  // ---------------------------------------------------------------- the store

  /** `registered` lists the groups in `_howls`; `lists` counts the lists `load` has made itself. */
  datatype Store = Store(cache: map<string, real>, groups: seq<Group>, registered: seq<nat>, lists: nat)

  predicate Valid(s: Store) {
    && (forall k :: k in s.registered ==> k < |s.groups|)
    && (forall j, k :: 0 <= j < k < |s.registered| ==> s.registered[j] != s.registered[k])
  }

  /** Every registered group that has loaded finds its buffer. */
  predicate BuffersKept(s: Store)
    requires Valid(s)
  {
    forall i :: i in s.registered && s.groups[i].state == Ready ==> Key(s.groups[i].src) in s.cache
  }

  function WithGroup(s: Store, i: nat, g: Group): Store
    requires i < |s.groups|
  {
    s.(groups := s.groups[i := g])
  }

  /** `new Howl`, up to loading. */
  function Created(s: Store, src: Source): Store {
    s.(groups := s.groups + [Group(src, Idle, 0, 0.0, 0)], registered := s.registered + [|s.groups|])
  }

  /** `load` when no candidate fits; a URL picked before becomes a list again. */
  function Refused(s: Store, i: nat): Store
    requires i < |s.groups|
  {
    var g := s.groups[i];
    match g.src
    case Url(u) => WithGroup(s, i, g.(src := Candidates(-1 - s.lists, [u]))).(lists := s.lists + 1)
    case Candidates(_, _) => s
  }

  /** `load` with the candidate it picked: a cached buffer loads at once, another is requested. */
  function Picked(s: Store, i: nat, url: string): Store
    requires i < |s.groups|
  {
    var g := s.groups[i].(src := Url(url), sounds := s.groups[i].sounds + 1);
    WithGroup(s, i,
      if url in s.cache then g.(state := Ready, duration := s.cache[url])
      else g.(state := Loading, requests := g.requests + 1))
  }

  /** A download was decoded: the buffer is kept only for a group that still has sounds. */
  function Decoded(s: Store, i: nat, duration: real): Store
    requires i < |s.groups| && s.groups[i].requests > 0
  {
    var g := s.groups[i].(requests := s.groups[i].requests - 1);
    if g.sounds == 0 then WithGroup(s, i, g)
    else WithGroup(s, i, g.(state := Ready, duration := if g.duration == 0.0 then duration else g.duration))
           .(cache := s.cache[Key(g.src) := duration])
  }

  /** Another registered group counts as using the buffer. */
  predicate Wanted(s: Store, i: nat)
    requires Valid(s) && i < |s.groups|
  {
    exists k :: k in s.registered && k != i && StillUsed(s.groups[i].src, s.groups[k].src)
  }

  function Unloaded(s: Store, i: nat): Store
    requires Valid(s) && i < |s.groups|
  {
    WithGroup(s, i, s.groups[i].(state := Idle, sounds := 0))
      .(registered := RemoveFirst<nat>(s.registered, i),
        cache := if Wanted(s, i) then s.cache else s.cache - {Key(s.groups[i].src)})
  }

  datatype Step =
    | Create(src: Source)
    | Load(group: nat, pick: Option<string>)
    | Decode(group: nat, duration: real)
    | Fail(group: nat)
    | Unload(group: nat)

  /** A group is made with a list; what `load` picks is one of its candidates. */
  predicate Enabled(s: Store, st: Step) {
    match st
    case Create(src) => src.Candidates? && src.list >= 0 && src.urls != []
    case Load(i, pick) =>
      i < |s.groups| && (pick.Some? ==> pick.value in Listed(s.groups[i].src) && pick.value != "")
    case Decode(i, _) => i < |s.groups| && s.groups[i].requests > 0
    case Fail(i) => i < |s.groups| && s.groups[i].requests > 0
    case Unload(i) => i < |s.groups|
  }

  function Do(s: Store, st: Step): Store
    requires Valid(s) && Enabled(s, st)
  {
    match st
    case Create(src) => Created(s, src)
    case Load(i, pick) => if pick.Some? then Picked(s, i, pick.value) else Refused(s, i)
    case Decode(i, duration) => Decoded(s, i, duration)
    case Fail(i) => WithGroup(s, i, s.groups[i].(requests := s.groups[i].requests - 1))
    case Unload(i) => Unloaded(s, i)
  }

  function Listed(src: Source): seq<string> {
    match src
    case Url(u) => [u]
    case Candidates(_, urls) => urls
  }

  function FirstFit(urls: seq<string>, fits: set<string>): Option<string> {
    if urls == [] then None else if urls[0] in fits then Some(urls[0]) else FirstFit(urls[1..], fits)
  }

  /** What `load` picks. */
  function Picking(src: Source, fits: set<string>): Option<string> {
    var first := FirstFit(Listed(src), fits);
    if first == Some("") then None else first
  }

  /** The first that fits stands at k: it fits, and none before it does. */
  predicate FirstAt(urls: seq<string>, fits: set<string>, k: int) {
    0 <= k < |urls| && urls[k] in fits && forall j :: 0 <= j < k ==> urls[j] !in fits
  }

  lemma {:induction false} FirstFitIsFirst(urls: seq<string>, fits: set<string>)
    ensures match FirstFit(urls, fits)
            case None => forall j :: 0 <= j < |urls| ==> urls[j] !in fits
            case Some(u) => exists k :: FirstAt(urls, fits, k) && urls[k] == u
  {
    if urls != [] {
      var rest := urls[1..];
      FirstFitIsFirst(rest, fits);
      if urls[0] in fits {
        assert FirstAt(urls, fits, 0);
      } else if FirstFit(rest, fits).Some? {
        var k :| FirstAt(rest, fits, k) && rest[k] == FirstFit(rest, fits).value;
        assert forall j :: 0 < j <= k ==> urls[j] == rest[j - 1];
        assert FirstAt(urls, fits, k + 1);
      } else {
        forall j | 0 <= j < |urls|
          ensures urls[j] !in fits
        {
          assert j > 0 ==> urls[j] == rest[j - 1];
        }
      }
    }
  }

  // ---------------------------------------------------------------- what is kept

  /**
   The one unload that deletes a buffer in use: the group's source is still a list, its members joined
   by commas spell the key of a loaded group, and no registered group has the same list or a member of
   it for its URL.
   */
  predicate JoinsToAnothersKey(s: Store, st: Step)
    requires Valid(s) && Enabled(s, st)
  {
    st.Unload? &&
    var mine := s.groups[st.group].src;
    && mine.Candidates?
    && (exists k :: k in s.registered && k != st.group && s.groups[k].state == Ready
                    && Key(s.groups[k].src) == Join(mine.urls))
    && (forall k :: k in s.registered && k != st.group ==>
          s.groups[k].src != mine && !(s.groups[k].src.Url? && s.groups[k].src.url in mine.urls))
  }

  /** Validity is a matter of the list of groups alone. */
  lemma SameShape(a: Store, b: Store)
    requires Valid(a) && b.registered == a.registered && |b.groups| == |a.groups|
    ensures Valid(b)
  {
    forall k | k in b.registered
      ensures k < |b.groups|
    {
    }
  }

  lemma ShorterList(a: Store, b: Store)
    requires Valid(a) && |b.groups| == |a.groups|
    requires forall j :: 0 <= j < |b.registered| ==> b.registered[j] in a.registered
    requires forall j, k :: 0 <= j < k < |b.registered| ==> b.registered[j] != b.registered[k]
    ensures Valid(b)
  {
    forall k | k in b.registered
      ensures k < |b.groups|
    {
      var j :| 0 <= j < |b.registered| && b.registered[j] == k;
      assert b.registered[j] in a.registered;
    }
  }

  /** An unload only takes its group off the list. */
  lemma UnloadValid(s: Store, i: nat)
    requires Valid(s) && i < |s.groups|
    ensures Valid(Unloaded(s, i))
  {
    var u := Unloaded(s, i);
    RemoveFirstMembers<nat>(s.registered, i);
    assert u.registered == RemoveFirst<nat>(s.registered, i) && |u.groups| == |s.groups|;
    ShorterList(s, u);
  }

  lemma ValidKept(s: Store, st: Step)
    requires Valid(s) && Enabled(s, st)
    ensures Valid(Do(s, st))
  {
    match st {
      case Create(src) => assert |s.groups| !in s.registered;
      case Unload(i) => UnloadValid(s, i);
      case Load(i, pick) => SameShape(s, Do(s, st));
      case Decode(i, duration) => SameShape(s, Do(s, st));
      case Fail(i) => SameShape(s, Do(s, st));
    }
  }

  lemma UnloadKeeps(s: Store, i: nat)
    requires Valid(s) && i < |s.groups| && BuffersKept(s) && Valid(Unloaded(s, i))
    ensures BuffersKept(Unloaded(s, i)) <==> !JoinsToAnothersKey(s, Unload(i))
  {
    var u := Unloaded(s, i);
    var mine := s.groups[i].src;
    RemoveFirstMembers<nat>(s.registered, i);
    if JoinsToAnothersKey(s, Unload(i)) {
      var k :| k in s.registered && k != i && s.groups[k].state == Ready && Key(s.groups[k].src) == Join(mine.urls);
      assert k in u.registered && u.groups[k] == s.groups[k] && Key(u.groups[k].src) !in u.cache;
    } else {
      forall k | k in u.registered && u.groups[k].state == Ready
        ensures Key(u.groups[k].src) in u.cache
      {
        assert k in s.registered && k != i && u.groups[k] == s.groups[k];
        if !Wanted(s, i) {
          assert !StillUsed(mine, s.groups[k].src);
          if Key(s.groups[k].src) == Key(mine) && mine.Url? {
            PickedRecognises(mine, s.groups[k].src);
          }
        }
      }
    }
  }

  /** Every step leaves each registered, loaded group its buffer, with exactly that exception. */
  lemma BufferKept(s: Store, st: Step)
    requires Valid(s) && Enabled(s, st) && BuffersKept(s)
    ensures Valid(Do(s, st))
    ensures BuffersKept(Do(s, st)) <==> !JoinsToAnothersKey(s, st)
  {
    ValidKept(s, st);
    if st.Unload? {
      UnloadKeeps(s, st.group);
    }
  }

  /** A group waits for one download more after a load that missed the cache, and for one less after its answer. */
  lemma RequestsBalance(s: Store, st: Step, i: nat)
    requires Valid(s) && Enabled(s, st) && i < |s.groups|
    ensures i < |Do(s, st).groups|
    ensures Do(s, st).groups[i].requests + (if (st.Decode? || st.Fail?) && st.group == i then 1 else 0)
         == s.groups[i].requests
            + (if st.Load? && st.group == i && st.pick.Some? && st.pick.value !in s.cache then 1 else 0)
  {
  }

  /** A list that `load` has made. */
  predicate Made(src: Source) {
    src.Candidates? && src.list < 0
  }

  /** The lists that `load` has made have numbers of their own, none of which is still to come. */
  predicate OwnLists(s: Store) {
    && (forall i :: 0 <= i < |s.groups| && Made(s.groups[i].src) ==> s.groups[i].src.list + s.lists >= 0)
    && (forall i, j :: 0 <= i < j < |s.groups| && Made(s.groups[i].src) ==> s.groups[i].src != s.groups[j].src)
  }

  /** A list that `load` makes of a URL is no other group's list, however the groups came about. */
  lemma OwnListsKept(s: Store, st: Step)
    requires Valid(s) && Enabled(s, st) && OwnLists(s)
    ensures OwnLists(Do(s, st))
    ensures st.Load? && st.pick == None && s.groups[st.group].src.Url? ==>
              var src := Do(s, st).groups[st.group].src;
              src.Candidates? && src.urls == [s.groups[st.group].src.url]
              && forall k :: 0 <= k < |s.groups| ==> s.groups[k].src != src
  {
  }

  /** The group is off the list, and of the buffers at most its own is gone, unless a group on the list still uses it. */
  ghost predicate Forgotten(before: Store, after: Store, i: nat)
    requires i < |before.groups| && |after.groups| == |before.groups|
  {
    var mine := before.groups[i].src;
    && i !in after.registered && (forall k :: k != i ==> (k in after.registered <==> k in before.registered))
    && (forall u :: u in after.cache ==> u in before.cache && after.cache[u] == before.cache[u])
    && (forall u :: u in before.cache && u !in after.cache ==> u == Key(mine))
    && (Key(mine) in after.cache ==>
          exists k :: k in after.registered && k < |before.groups| && StillUsed(mine, before.groups[k].src))
  }

  lemma UnloadForgets(s: Store, i: nat)
    requires Valid(s) && i < |s.groups|
    ensures |Unloaded(s, i).groups| == |s.groups| && Forgotten(s, Unloaded(s, i), i)
  {
    RemoveFirstMembers<nat>(s.registered, i);
    if Wanted(s, i) {
      var k :| k in s.registered && k != i && StillUsed(s.groups[i].src, s.groups[k].src);
      assert k in Unloaded(s, i).registered;
    }
  }

  // ---------------------------------------------------------------- runs

  predicate Follows(s: Store, sts: seq<Step>)
    requires Valid(s)
    decreases |sts|
  {
    sts == [] || (Enabled(s, sts[0]) && (ValidKept(s, sts[0]); Follows(Do(s, sts[0]), sts[1..])))
  }

  function Run(s: Store, sts: seq<Step>): (r: Store)
    requires Valid(s) && Follows(s, sts)
    ensures Valid(r)
    decreases |sts|
  {
    if sts == [] then s
    else
      ValidKept(s, sts[0]);
      Run(Do(s, sts[0]), sts[1..])
  }

  /** Every unload of the run is of a group that has picked its URL, as every load that finds a codec does. */
  predicate UnloadsPicked(s: Store, sts: seq<Step>)
    requires Valid(s) && Follows(s, sts)
    decreases |sts|
  {
    sts == [] || (
      && (sts[0].Unload? ==> s.groups[sts[0].group].src.Url?)
      && (ValidKept(s, sts[0]); UnloadsPicked(Do(s, sts[0]), sts[1..])))
  }

  /** Every loaded group has its buffer in every state the run passes through. */
  predicate KeptThroughout(s: Store, sts: seq<Step>)
    requires Valid(s) && Follows(s, sts)
    decreases |sts|
  {
    BuffersKept(s) && (sts == [] || (ValidKept(s, sts[0]); KeptThroughout(Do(s, sts[0]), sts[1..])))
  }

  predicate AvoidsCollisions(s: Store, sts: seq<Step>)
    requires Valid(s) && Follows(s, sts)
    decreases |sts|
  {
    sts == [] || (
      && !JoinsToAnothersKey(s, sts[0])
      && (ValidKept(s, sts[0]); AvoidsCollisions(Do(s, sts[0]), sts[1..])))
  }

  /** Over whole runs loaded groups keep their buffers if and only if that one kind of unload never happens. */
  lemma {:induction false} KeptUnlessColliding(s: Store, sts: seq<Step>)
    requires Valid(s) && BuffersKept(s) && Follows(s, sts)
    ensures KeptThroughout(s, sts) <==> AvoidsCollisions(s, sts)
    decreases |sts|
  {
    if sts != [] {
      BufferKept(s, sts[0]);
      var next := Do(s, sts[0]);
      if BuffersKept(next) {
        KeptUnlessColliding(next, sts[1..]);
      } else {
        assert !KeptThroughout(next, sts[1..]);
      }
    }
  }

  /** Over any such run no loaded group ever loses its buffer. */
  lemma {:induction false} BuffersKeptThroughout(s: Store, sts: seq<Step>)
    requires Valid(s) && BuffersKept(s) && Follows(s, sts) && UnloadsPicked(s, sts)
    ensures BuffersKept(Run(s, sts))
    decreases |sts|
  {
    if sts != [] {
      BufferKept(s, sts[0]);
      BuffersKeptThroughout(Do(s, sts[0]), sts[1..]);
    }
  }

  lemma FollowsOne(s: Store, st: Step, rest: seq<Step>)
    requires Valid(s) && Enabled(s, st) && Valid(Do(s, st)) && Follows(Do(s, st), rest)
    ensures Follows(s, [st] + rest) && Run(s, [st] + rest) == Run(Do(s, st), rest)
  {
    assert ([st] + rest)[1..] == rest;
  }

  lemma CollidingKey()
    ensures Join(["x.mp3", "y.mp3"]) == COMMA_URL
  {
    assert ["x.mp3", "y.mp3"][1..] == ["y.mp3"];
    assert Join(["y.mp3"]) == "y.mp3";
    assert "x.mp3" + "," + "y.mp3" == "x.mp3,y.mp3";
  }

  const COMMA_URL := "x.mp3,y.mp3"
  const LOADED := Candidates(0, [COMMA_URL])
  const LISTED := Candidates(1, ["x.mp3", "y.mp3"])

  /** One group has loaded the URL with the comma; the other lists the URL's two halves and never loads. */
  function Colliding(duration: real): Store {
    Store(map[COMMA_URL := duration],
          [Group(Url(COMMA_URL), Ready, 1, duration, 0), Group(LISTED, Idle, 0, 0.0, 0)], [0, 1], 0)
  }

  lemma CollidingIsReached(duration: real)
    ensures var s0 := Store(map[], [], [], 0);
            var s1 := Do(s0, Create(LOADED));
            && Enabled(s1, Load(0, Some(COMMA_URL)))
            && var s2 := Do(s1, Load(0, Some(COMMA_URL)));
            && Enabled(s2, Decode(0, duration))
            && var s3 := Do(s2, Decode(0, duration));
            && Valid(s1) && Valid(s2) && Valid(s3) && Do(s3, Create(LISTED)) == Colliding(duration)
  {
    var g := Group(LOADED, Idle, 0, 0.0, 0);
    var s1 := Do(Store(map[], [], [], 0), Create(LOADED));
    assert s1.groups == [g] && s1.registered == [0];
    var s2 := Do(s1, Load(0, Some(COMMA_URL)));
    assert s2.groups == [Group(Url(COMMA_URL), Loading, 1, 0.0, 1)] && s2.registered == [0];
    var s3 := Do(s2, Decode(0, duration));
    assert s3.groups == [Group(Url(COMMA_URL), Ready, 1, duration, 0)] && s3.cache == map[COMMA_URL := duration];
  }

  lemma CollidingLoses(duration: real)
    ensures var s := Colliding(duration);
            Valid(s) && Valid(Do(s, Unload(1))) && !BuffersKept(Do(s, Unload(1)))
  {
    var s := Colliding(duration);
    CollidingKey();
    ValidKept(s, Unload(1));
    assert 0 in s.registered && s.groups[0].state == Ready;
    assert COMMA_URL != "x.mp3" && COMMA_URL != "y.mp3";
    UnloadKeeps(s, 1);
  }

  /**
   Why the exception is needed: one group loads the URL "x.mp3,y.mp3"; another, made with the candidates
   "x.mp3" and "y.mp3" but never loaded, is unloaded and takes the first one's buffer.
   */
  lemma CommaCollision(duration: real)
    ensures var sts := [Create(LOADED)] + ([Load(0, Some(COMMA_URL))] + ([Decode(0, duration)]
                       + ([Create(LISTED)] + ([Unload(1)] + []))));
            var s := Store(map[], [], [], 0);
            Valid(s) && Follows(s, sts) && !BuffersKept(Run(s, sts))
  {
    CollidingIsReached(duration);
    CollidingLoses(duration);
    var s0 := Store(map[], [], [], 0);
    var s1 := Do(s0, Create(LOADED));
    var s2 := Do(s1, Load(0, Some(COMMA_URL)));
    var s3 := Do(s2, Decode(0, duration));
    var last := [Unload(1)] + [];
    FollowsOne(Colliding(duration), Unload(1), []);
    FollowsOne(s3, Create(LISTED), last);
    FollowsOne(s2, Decode(0, duration), [Create(LISTED)] + last);
    FollowsOne(s1, Load(0, Some(COMMA_URL)), [Decode(0, duration)] + ([Create(LISTED)] + last));
    FollowsOne(s0, Create(LOADED), [Load(0, Some(COMMA_URL))] + ([Decode(0, duration)] + ([Create(LISTED)] + last)));
  }

  // ---------------------------------------------------------------- the store itself

  class Library {
    var cache: map<string, real>
    var groups: seq<Group>
    var registered: seq<nat>
    var lists: nat

    function State(): Store
      reads this
    {
      Store(cache, groups, registered, lists)
    }

    /** Every other group is as it was. */
    twostate predicate OnlyOne(i: nat)
      reads this
    {
      |groups| == |old(groups)| && forall k :: 0 <= k < |groups| && k != i ==> groups[k] == old(groups)[k]
    }

    constructor ()
      ensures State() == Store(map[], [], [], 0) && Valid(State())
    {
      cache, groups, registered, lists := map[], [], [], 0;
    }

    method New(src: Source)
      modifies this
      ensures State() == Created(old(State()), src)
    {
      registered := registered + [|groups|];
      groups := groups + [Group(src, Idle, 0, 0.0, 0)];
    }

    /** `load`; `fits` holds the URLs some codec can play. The first candidate that fits is picked, unless empty. */
    method Load(i: nat, fits: set<string>) returns (pick: Option<string>)
      requires i < |groups|
      modifies this
      ensures pick == Picking(old(groups[i].src), fits) && Enabled(old(State()), Step.Load(i, pick))
      ensures State() == if pick.Some? then Picked(old(State()), i, pick.value) else Refused(old(State()), i)
      ensures cache == old(cache) && registered == old(registered) && OnlyOne(i)
      ensures var urls := Listed(old(groups[i].src));
              if pick.Some? then pick.value != "" && exists k :: FirstAt(urls, fits, k) && urls[k] == pick.value
              else (forall k :: 0 <= k < |urls| ==> urls[k] !in fits) || exists k :: FirstAt(urls, fits, k) && urls[k] == ""
      ensures var g, was := groups[i], old(groups[i]);
              if pick == None then
                g.state == was.state && g.sounds == was.sounds && g.duration == was.duration && g.requests == was.requests
              else
                && g.src == Url(pick.value) && g.sounds == was.sounds + 1
                && if pick.value in old(cache)
                   then g.state == Ready && g.duration == old(cache)[pick.value] && g.requests == was.requests
                   else g.state == Loading && g.duration == was.duration && g.requests == was.requests + 1
    {
      var urls := Listed(groups[i].src);
      pick := None;
      for k := 0 to |urls|
        invariant pick == None && FirstFit(urls, fits) == FirstFit(urls[k..], fits)
      {
        if urls[k] in fits {
          pick := Some(urls[k]);
          break;
        }
      }
      FirstFitIsFirst(urls, fits);
      if pick == Some("") {
        pick := None;
      }
      if pick == None {
        if groups[i].src.Url? {
          groups := groups[i := groups[i].(src := Candidates(-1 - lists, urls))];
          lists := lists + 1;
        }
      } else {
        groups := groups[i := groups[i].(src := Url(pick.value), sounds := groups[i].sounds + 1)];
        if pick.value in cache {
          groups := groups[i := groups[i].(state := Ready, duration := cache[pick.value])];
        } else {
          groups := groups[i := groups[i].(state := Loading, requests := groups[i].requests + 1)];
        }
      }
    }

    method OnDecoded(i: nat, duration: real)
      requires i < |groups| && groups[i].requests > 0
      modifies this
      ensures State() == Decoded(old(State()), i, duration)
      ensures registered == old(registered) && OnlyOne(i)
      ensures var g, was := groups[i], old(groups[i]);
              && g.src == was.src && g.sounds == was.sounds && g.requests == was.requests - 1
              && if was.sounds == 0 then cache == old(cache) && g.state == was.state && g.duration == was.duration
                 else
                   && Key(was.src) in cache && cache[Key(was.src)] == duration
                   && (forall u :: u != Key(was.src) ==> (u in cache <==> u in old(cache)))
                   && (forall u :: u in old(cache) && u != Key(was.src) ==> cache[u] == old(cache)[u])
                   && g.state == Ready && g.duration == if was.duration == 0.0 then duration else was.duration
    {
      groups := groups[i := groups[i].(requests := groups[i].requests - 1)];
      if groups[i].sounds > 0 {
        cache := cache[Key(groups[i].src) := duration];
        var known := groups[i].duration;
        groups := groups[i := groups[i].(state := Ready, duration := if known == 0.0 then duration else known)];
      }
    }

    /** Look for a group in the list that still uses the buffer of `mine`. */
    method FindUser(mine: Source) returns (found: bool)
      requires forall j :: 0 <= j < |registered| ==> registered[j] < |groups|
      ensures found <==> exists j :: 0 <= j < |registered| && StillUsed(mine, groups[registered[j]].src)
    {
      for k := 0 to |registered|
        invariant forall j :: 0 <= j < k ==> !StillUsed(mine, groups[registered[j]].src)
      {
        if StillUsed(mine, groups[registered[k]].src) {
          return true;
        }
      }
      return false;
    }

    /** `unload`: leave the list of groups, then look for another that still uses the buffer. */
    method Unload(i: nat)
      requires Valid(State()) && i < |groups|
      modifies this
      ensures State() == Unloaded(old(State()), i)
      ensures OnlyOne(i) && groups[i].state == Idle && groups[i].sounds == 0
      ensures Forgotten(old(State()), State(), i)
    {
      RemoveFirstMembers<nat>(registered, i);
      registered := RemoveFirst<nat>(registered, i);
      assert forall j :: 0 <= j < |registered| ==> registered[j] in registered && registered[j] in old(registered);
      var used := FindUser(groups[i].src);
      assert used == Wanted(old(State()), i);
      if !used {
        cache := cache - {Key(groups[i].src)};
      }
      groups := groups[i := groups[i].(state := Idle, sounds := 0)];
      UnloadForgets(old(State()), i);
    }
  }
}
