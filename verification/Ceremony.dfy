/** The login-ceremony store (login-service/app/ceremony.py): an insertion-ordered dictionary with
    expiry, single use and a hard cap. */
module Ceremonies {
  import opened Wrappers
  import opened Queries

  const TTL := 600.0
  const CAP := 10_000

  /** `data` stands for the fields a login step fills in later (session, user, pending factor). */
  datatype Ceremony = Ceremony(id: string, authRequest: string, csrf: string, created: real, expires: real,
                               consumed: bool, data: map<string, string>)

  // --- the dictionary operations -------------------------------------------------------

  function Alive(now: real): Ceremony -> bool
  {
    (c: Ceremony) => !(c.expires <= now || c.consumed)
  }

  function Purge(items: seq<Ceremony>, now: real): seq<Ceremony> { Select(items, Alive(now)) }

  /** Drops the oldest until there is room for one more. */
  function Evict(items: seq<Ceremony>): seq<Ceremony>
  {
    if |items| >= CAP then Evict(items[1..]) else items
  }

  /** The position of a key. */
  function Find(items: seq<Ceremony>, id: string): (r: Option<nat>)
    ensures r.Some? ==> r.value < |items| && items[r.value].id == id
    ensures r.None? ==> forall i :: 0 <= i < |items| ==> items[i].id != id
  {
    if items == [] then None
    else if items[|items| - 1].id == id then Some(|items| - 1)
    else Find(items[..|items| - 1], id)
  }

  /** Assignment under a key: a new key goes to the end, a known one keeps its place. */
  function Put(items: seq<Ceremony>, c: Ceremony): seq<Ceremony>
  {
    var at := Find(items, c.id);
    if at.Some? then items[at.value := c] else items + [c]
  }

  function Fresh(id: string, authRequest: string, csrf: string, now: real): Ceremony
  {
    Ceremony(id, authRequest, csrf, now, now + TTL, false, map[])
  }

  /** Keyword arguments of an update: any field but the key can be set. */
  datatype Changes = Changes(authRequest: Option<string>, csrf: Option<string>, created: Option<real>,
                             expires: Option<real>, consumed: Option<bool>, data: map<string, string>)

  function Or<T>(change: Option<T>, old_: T): T { if change.Some? then change.value else old_ }

  function Changed(c: Ceremony, ch: Changes): Ceremony
  {
    Ceremony(c.id, Or(ch.authRequest, c.authRequest), Or(ch.csrf, c.csrf), Or(ch.created, c.created),
             Or(ch.expires, c.expires), Or(ch.consumed, c.consumed), c.data + ch.data)
  }

  datatype Call =
    | Start(id: string, authRequest: string, csrf: string, now: real)
    | Get(id: string, now: real)
    | Update(id: string, changes: Changes)
    | Consume(id: string)

  function Apply(items: seq<Ceremony>, call: Call): seq<Ceremony>
  {
    match call
    case Start(id, authRequest, csrf, now) => Put(Evict(Purge(items, now)), Fresh(id, authRequest, csrf, now))
    case Get(_, now) => Purge(items, now)
    case Update(id, changes) =>
      var at := Find(items, id);
      if at.Some? then items[at.value := Changed(items[at.value], changes)] else items
    case Consume(id) =>
      var at := Find(items, id);
      if at.Some? then items[at.value := items[at.value].(consumed := true)] else items
  }

  /** What a lookup answers. */
  function Served(items: seq<Ceremony>, id: string, now: real): Option<Ceremony>
  {
    var kept := Purge(items, now);
    var at := Find(kept, id);
    if at.Some? then Some(kept[at.value]) else None
  }

  function Run(items: seq<Ceremony>, calls: seq<Call>): seq<Ceremony>
  {
    if calls == [] then items else Apply(Run(items, calls[..|calls| - 1]), calls[|calls| - 1])
  }

  // --- what every run keeps --------------------------------------------------------------

  ghost predicate Sound(items: seq<Ceremony>)
  {
    && |items| <= CAP
    && forall i, j :: 0 <= i < j < |items| ==> items[i].id != items[j].id
  }

  lemma {:induction false} PurgeKeepsSound(items: seq<Ceremony>, now: real)
    requires Sound(items)
    ensures Sound(Purge(items, now)) && |Purge(items, now)| <= |items|
    ensures forall c :: c in Purge(items, now) ==> c in items && Alive(now)(c)
  {
    if items != [] {
      var init := items[..|items| - 1];
      PurgeKeepsSound(init, now);
      assert items == init + [items[|items| - 1]];
      forall i | 0 <= i < |Purge(init, now)| ensures Purge(init, now)[i].id != items[|items| - 1].id {
        assert Purge(init, now)[i] in Purge(init, now);
      }
    }
  }

  lemma EvictMakesRoom(items: seq<Ceremony>)
    requires Sound(items)
    ensures Sound(Evict(items)) && |Evict(items)| < CAP
    ensures Evict(items) == if |items| == CAP then items[1..] else items
  {
    if |items| == CAP { assert Evict(items[1..]) == items[1..]; }
  }

  lemma ApplyKeepsSound(items: seq<Ceremony>, call: Call)
    requires Sound(items)
    ensures Sound(Apply(items, call))
  {
    if call.Start? {
      PurgeKeepsSound(items, call.now);
      EvictMakesRoom(Purge(items, call.now));
    } else if call.Get? {
      PurgeKeepsSound(items, call.now);
    }
  }

  /** However many ceremonies are started, the store never holds more than its cap, one per id. */
  lemma {:induction false} NeverOverCap(items: seq<Ceremony>, calls: seq<Call>)
    requires Sound(items)
    ensures Sound(Run(items, calls))
  {
    if calls != [] {
      NeverOverCap(items, calls[..|calls| - 1]);
      ApplyKeepsSound(Run(items, calls[..|calls| - 1]), calls[|calls| - 1]);
    }
  }

  // --- how long a ceremony lives -----------------------------------------------------------

  /** The same login attempt: everything but what later steps filled in. */
  predicate SameAttempt(a: Ceremony, b: Ceremony)
  {
    a == b.(data := a.data)
  }

  /** The attempt sits in the store, with at most `younger` entries behind it. */
  predicate Holds(items: seq<Ceremony>, c: Ceremony, younger: nat)
  {
    exists i :: 0 <= i < |items| && SameAttempt(items[i], c) && |items| - 1 - i <= younger
  }

  /** The update only fills in what later steps learn. */
  predicate OnlyData(ch: Changes)
  {
    ch.authRequest.None? && ch.csrf.None? && ch.created.None? && ch.expires.None? && ch.consumed.None?
  }

  /** The call leaves the attempt alone: it does not consume, replace or rewrite it, and any purge
      comes before it expires. */
  predicate Spares(call: Call, id: string, expires: real)
  {
    match call
    case Start(other, _, _, now) => other != id && now < expires
    case Get(_, now) => now < expires
    case Update(other, changes) => other != id || OnlyData(changes)
    case Consume(other) => other != id
  }

  lemma {:induction false} SelectKeepsTail<T>(rows: seq<T>, wanted: T -> bool, i: nat) returns (j: nat)
    requires i < |rows| && wanted(rows[i])
    ensures j < |Select(rows, wanted)| && Select(rows, wanted)[j] == rows[i]
    ensures |Select(rows, wanted)| - j <= |rows| - i
  {
    var init := rows[..|rows| - 1];
    if i == |init| {
      j := |Select(rows, wanted)| - 1;
    } else {
      j := SelectKeepsTail(init, wanted, i);
    }
  }

  lemma PurgeSpares(items: seq<Ceremony>, now: real, c: Ceremony, younger: nat)
    requires Sound(items) && Holds(items, c, younger) && !c.consumed && now < c.expires
    ensures Sound(Purge(items, now)) && Holds(Purge(items, now), c, younger)
  {
    var i :| 0 <= i < |items| && SameAttempt(items[i], c) && |items| - 1 - i <= younger;
    var j := SelectKeepsTail(items, Alive(now), i);
    PurgeKeepsSound(items, now);
  }

  lemma StartSpares(items: seq<Ceremony>, call: Call, c: Ceremony, younger: nat)
    requires Sound(items) && Holds(items, c, younger) && !c.consumed && call.Start? && Spares(call, c.id, c.expires)
    requires younger + 1 < CAP
    ensures Holds(Apply(items, call), c, younger + 1)
  {
    var kept := Purge(items, call.now);
    PurgeSpares(items, call.now, c, younger);
    var i :| 0 <= i < |kept| && SameAttempt(kept[i], c) && |kept| - 1 - i <= younger;
    EvictMakesRoom(kept);
    var j := if |kept| == CAP then i - 1 else i;
    assert SameAttempt(Evict(kept)[j], c);
    assert SameAttempt(Apply(items, call)[j], c);
  }

  lemma TouchSpares(items: seq<Ceremony>, call: Call, c: Ceremony, younger: nat)
    requires Sound(items) && Holds(items, c, younger) && (call.Update? || call.Consume?)
    requires Spares(call, c.id, c.expires)
    ensures Holds(Apply(items, call), c, younger)
  {
    var i :| 0 <= i < |items| && SameAttempt(items[i], c) && |items| - 1 - i <= younger;
    assert SameAttempt(Apply(items, call)[i], c);
  }

  function Starts(calls: seq<Call>): nat
  {
    if calls == [] then 0 else Starts(calls[..|calls| - 1]) + if calls[|calls| - 1].Start? then 1 else 0
  }

  /** An attempt that is neither consumed nor expired disappears only after as many later starts as
      the cap. */
  lemma {:induction false} HeldUntilCapStarts(items: seq<Ceremony>, calls: seq<Call>, c: Ceremony)
    requires Sound(items) && Holds(items, c, 0) && !c.consumed
    requires forall k :: 0 <= k < |calls| ==> Spares(calls[k], c.id, c.expires)
    requires Starts(calls) < CAP
    ensures Holds(Run(items, calls), c, Starts(calls))
  {
    if calls != [] {
      var init, last := calls[..|calls| - 1], calls[|calls| - 1];
      HeldUntilCapStarts(items, init, c);
      NeverOverCap(items, init);
      var before := Run(items, init);
      match last
      case Start(_, _, _, _) => StartSpares(before, last, c, Starts(init));
      case Get(_, now) => PurgeSpares(before, now, c, Starts(init));
      case _ => TouchSpares(before, last, c, Starts(init));
    }
  }

  lemma StartHolds(items: seq<Ceremony>, id: string, authRequest: string, csrf: string, t: real)
    requires Sound(items) && Find(items, id).None?
    ensures Holds(Apply(items, Start(id, authRequest, csrf, t)), Fresh(id, authRequest, csrf, t), 0)
  {
    var c, kept := Fresh(id, authRequest, csrf, t), Purge(items, t);
    var room := Evict(kept);
    PurgeKeepsSound(items, t);
    EvictMakesRoom(kept);
    forall i | 0 <= i < |room| ensures room[i].id != id {
      assert room[i] in kept;
    }
    assert SameAttempt(Put(room, c)[|room|], c);
  }

  lemma HeldIsServed(items: seq<Ceremony>, c: Ceremony, younger: nat, now: real)
    requires Sound(items) && Holds(items, c, younger) && !c.consumed && now < c.expires
    ensures Served(items, c.id, now).Some? && SameAttempt(Served(items, c.id, now).value, c)
  {
    PurgeSpares(items, now, c, younger);
  }

  /** A started ceremony is served, with its own request and token, until it is consumed, ten
      minutes pass, or as many others were started as the cap. */
  lemma {:induction false} StartedIsServed(items: seq<Ceremony>, id: string, authRequest: string, csrf: string, t: real,
                        calls: seq<Call>, now: real)
    requires Sound(items) && now < t + TTL && Starts(calls) < CAP
    requires forall k :: 0 <= k < |calls| ==> Spares(calls[k], id, t + TTL)
    requires forall i :: 0 <= i < |items| ==> items[i].id != id
    ensures var answer := Served(Run(Apply(items, Start(id, authRequest, csrf, t)), calls), id, now);
            && answer.Some?
            && answer.value.id == id && answer.value.authRequest == authRequest && answer.value.csrf == csrf
            && answer.value.created == t && answer.value.expires == t + TTL && !answer.value.consumed
  {
    var c := Fresh(id, authRequest, csrf, t);
    var started := Apply(items, Start(id, authRequest, csrf, t));
    StartHolds(items, id, authRequest, csrf, t);
    ApplyKeepsSound(items, Start(id, authRequest, csrf, t));
    HeldUntilCapStarts(started, calls, c);
    NeverOverCap(started, calls);
    HeldIsServed(Run(started, calls), c, Starts(calls), now);
  }

  // --- what each call answers --------------------------------------------------------------------

  function Lasting(now: real): Ceremony -> bool
  {
    (c: Ceremony) => now < c.expires && !c.consumed
  }

  /** A lookup drops what is consumed or has expired, to the moment, and serves the ceremony of that
      id if it is still there. */
  lemma GetAnswer(items: seq<Ceremony>, id: string, now: real)
    requires Sound(items)
    ensures Apply(items, Get(id, now)) == Select(items, Lasting(now))
    ensures Served(items, id, now).None? <==>
              forall i :: 0 <= i < |items| && items[i].id == id ==> items[i].expires <= now || items[i].consumed
    ensures forall i :: 0 <= i < |items| && items[i].id == id && now < items[i].expires && !items[i].consumed ==>
              Served(items, id, now) == Some(items[i])
  {
    SelectSame(items, Alive(now), Lasting(now));
    var kept := Purge(items, now);
    PurgeKeepsSound(items, now);
    forall i | 0 <= i < |items| && items[i].id == id && now < items[i].expires && !items[i].consumed
      ensures Served(items, id, now) == Some(items[i])
    {
      SelectMembers(items, Alive(now), items[i]);
      var j :| 0 <= j < |kept| && kept[j] == items[i];
    }
    if Served(items, id, now).Some? {
      var c := Served(items, id, now).value;
      assert c in kept;
      var i :| 0 <= i < |items| && items[i] == c;
    }
  }

  /** Starting keeps what a lookup would keep, without the oldest if that is as many as the cap, and
      puts the new ceremony last: unconsumed, without data, ending ten minutes from now. */
  lemma StartAnswer(items: seq<Ceremony>, id: string, authRequest: string, csrf: string, now: real)
    requires Sound(items) && forall i :: 0 <= i < |items| ==> items[i].id != id
    ensures var kept, after := Select(items, Lasting(now)), Apply(items, Start(id, authRequest, csrf, now));
            after == (if |kept| == CAP then kept[1..] else kept)
                     + [Ceremony(id, authRequest, csrf, now, now + TTL, false, map[])]
  {
    SelectSame(items, Alive(now), Lasting(now));
    var kept := Purge(items, now);
    PurgeKeepsSound(items, now);
    EvictMakesRoom(kept);
    forall i | 0 <= i < |Evict(kept)| ensures Evict(kept)[i].id != id {
      assert Evict(kept)[i] in kept;
    }
  }

  /** An update sets every field it names, and only those; what it fills in takes precedence over
      what was there. No other ceremony changes. */
  lemma UpdateAnswer(items: seq<Ceremony>, id: string, ch: Changes, i: nat)
    requires Sound(items) && i < |items|
    ensures var after := Apply(items, Update(id, ch));
            && |after| == |items|
            && var old_, new_ := items[i], after[i];
               if old_.id != id then new_ == old_
               else
                 && new_.id == id
                 && new_.authRequest == (if ch.authRequest.Some? then ch.authRequest.value else old_.authRequest)
                 && new_.csrf == (if ch.csrf.Some? then ch.csrf.value else old_.csrf)
                 && new_.created == (if ch.created.Some? then ch.created.value else old_.created)
                 && new_.expires == (if ch.expires.Some? then ch.expires.value else old_.expires)
                 && new_.consumed == (if ch.consumed.Some? then ch.consumed.value else old_.consumed)
                 && new_.data.Keys == old_.data.Keys + ch.data.Keys
                 && forall key :: key in new_.data ==>
                      new_.data[key] == if key in ch.data then ch.data[key] else old_.data[key]
  {
  }

  lemma ConsumeAnswer(items: seq<Ceremony>, id: string, i: nat)
    requires Sound(items) && i < |items|
    ensures var after := Apply(items, Consume(id));
            && |after| == |items|
            && after[i] == if items[i].id == id then items[i].(consumed := true) else items[i]
  {
  }

  // --- single use -------------------------------------------------------------------------------

  ghost predicate Spent(items: seq<Ceremony>, id: string)
  {
    forall i :: 0 <= i < |items| && items[i].id == id ==> items[i].consumed
  }

  /** The call brings the ceremony back: it starts it again, or sets its flag back. */
  predicate Revives(call: Call, id: string)
  {
    call.id == id && (call.Start? || (call.Update? && call.changes.consumed == Some(false)))
  }

  lemma ApplyKeepsSpent(items: seq<Ceremony>, call: Call, id: string)
    requires Sound(items) && Spent(items, id) && !Revives(call, id)
    ensures Spent(Apply(items, call), id)
  {
    if call.Start? {
      PurgeKeepsSound(items, call.now);
      EvictMakesRoom(Purge(items, call.now));
      assert forall i :: 0 <= i < |Evict(Purge(items, call.now))| ==> Evict(Purge(items, call.now))[i] in items;
    } else if call.Get? {
      PurgeKeepsSound(items, call.now);
      assert forall i :: 0 <= i < |Purge(items, call.now)| ==> Purge(items, call.now)[i] in items;
    }
  }

  /** Once consumed, a ceremony is never served again, whatever is called afterwards, as long as
      nobody starts it again or sets its flag back. */
  lemma {:induction false} ConsumedIsNeverServed(items: seq<Ceremony>, id: string, calls: seq<Call>, now: real)
    requires Sound(items)
    requires forall k :: 0 <= k < |calls| ==> !Revives(calls[k], id)
    ensures Spent(Run(Apply(items, Consume(id)), calls), id)
    ensures Served(Run(Apply(items, Consume(id)), calls), id, now) == None
  {
    var consumed := Apply(items, Consume(id));
    ApplyKeepsSound(items, Consume(id));
    NeverOverCap(consumed, calls);
    if calls != [] {
      var init := calls[..|calls| - 1];
      ConsumedIsNeverServed(items, id, init, now);
      NeverOverCap(consumed, init);
      ApplyKeepsSpent(Run(consumed, init), calls[|calls| - 1], id);
    }
    var final := Run(consumed, calls);
    PurgeKeepsSound(final, now);
    assert forall i :: 0 <= i < |Purge(final, now)| ==> Purge(final, now)[i] in Purge(final, now);
  }

  // --- the store ------------------------------------------------------------------------------

  class CeremonyStore {
    var ceremonies: seq<Ceremony>

    constructor ()
      ensures ceremonies == []
    {
      ceremonies := [];
    }

    method Delete(id: string)
      requires Sound(ceremonies)
      modifies this
      ensures Sound(ceremonies) && ceremonies == Select(old(ceremonies), OtherThan({id}))
    {
      var at := Find(ceremonies, id);
      if at.Some? {
        SelectAllButOne(ceremonies, at.value);
        ceremonies := ceremonies[..at.value] + ceremonies[at.value + 1..];
      } else {
        SelectAll(ceremonies, OtherThan({id}));
      }
    }

    /** The ids of the dead entries. */
    method CollectDead(now: real) returns (dead: seq<string>)
      ensures forall id :: id in dead
                <==> exists k :: 0 <= k < |ceremonies| && ceremonies[k].id == id && !Alive(now)(ceremonies[k])
    {
      dead := [];
      for i := 0 to |ceremonies|
        invariant forall id :: id in dead <==> exists k :: 0 <= k < i && ceremonies[k].id == id && !Alive(now)(ceremonies[k])
      {
        if !Alive(now)(ceremonies[i]) { dead := dead + [ceremonies[i].id]; }
      }
    }

    method DeleteAll(dead: seq<string>)
      requires Sound(ceremonies)
      modifies this
      ensures Sound(ceremonies) && ceremonies == Select(old(ceremonies), OtherThan(Ids(dead)))
    {
      ghost var start := ceremonies;
      SelectAll(start, OtherThan(Ids(dead[..0])));
      for i := 0 to |dead|
        invariant Sound(ceremonies) && ceremonies == Select(start, OtherThan(Ids(dead[..i])))
      {
        Delete(dead[i]);
        SelectWithoutOneMore(start, dead, i);
      }
      assert dead[..|dead|] == dead;
    }

    method PurgeExpired(now: real)
      requires Sound(ceremonies)
      modifies this
      ensures Sound(ceremonies) && ceremonies == Purge(old(ceremonies), now)
    {
      var dead := CollectDead(now);
      DeadIdsAreOfDead(ceremonies, now, dead);
      SelectSame(ceremonies, OtherThan(Ids(dead)), Alive(now));
      DeleteAll(dead);
    }

    method EvictUntilRoom()
      modifies this
      ensures ceremonies == Evict(old(ceremonies))
    {
      while |ceremonies| >= CAP
        invariant Evict(ceremonies) == Evict(old(ceremonies))
      {
        ceremonies := ceremonies[1..];
      }
    }

    method Start(id: string, authRequest: string, csrf: string, now: real) returns (c: Ceremony)
      requires Sound(ceremonies)
      modifies this
      ensures Sound(ceremonies) && ceremonies == Apply(old(ceremonies), Call.Start(id, authRequest, csrf, now))
      ensures c == Ceremony(id, authRequest, csrf, now, now + TTL, false, map[])
    {
      c := Fresh(id, authRequest, csrf, now);
      ApplyKeepsSound(ceremonies, Call.Start(id, authRequest, csrf, now));
      PurgeExpired(now);
      EvictUntilRoom();
      ceremonies := Put(ceremonies, c);
    }

    method Get(id: string, now: real) returns (r: Option<Ceremony>)
      requires Sound(ceremonies)
      modifies this
      ensures Sound(ceremonies) && ceremonies == Apply(old(ceremonies), Call.Get(id, now))
      ensures r == Served(old(ceremonies), id, now)
    {
      PurgeKeepsSound(ceremonies, now);
      PurgeExpired(now);
      var at := Find(ceremonies, id);
      if at.None? { return None; }
      var c := ceremonies[at.value];
      assert c in ceremonies;
      if c.consumed || c.expires <= now { return None; }
      r := Some(c);
    }

    method Update(id: string, changes: Changes) returns (r: Option<Ceremony>)
      requires Sound(ceremonies)
      modifies this
      ensures Sound(ceremonies) && ceremonies == Apply(old(ceremonies), Call.Update(id, changes))
      ensures r.Some? <==> Find(old(ceremonies), id).Some?
      ensures r.Some? ==> r.value in ceremonies && r.value.id == id
    {
      ApplyKeepsSound(ceremonies, Call.Update(id, changes));
      var at := Find(ceremonies, id);
      if at.None? { return None; }
      var c := ceremonies[at.value];
      ceremonies := ceremonies[at.value := Changed(c, changes)];
      r := Some(ceremonies[at.value]);
    }

    method Consume(id: string)
      requires Sound(ceremonies)
      modifies this
      ensures Sound(ceremonies) && ceremonies == Apply(old(ceremonies), Call.Consume(id))
    {
      ApplyKeepsSound(ceremonies, Call.Consume(id));
      var at := Find(ceremonies, id);
      if at.Some? {
        ceremonies := ceremonies[at.value := ceremonies[at.value].(consumed := true)];
      }
    }
  }

  // --- deleting by key is selecting the others -------------------------------------------------

  function OtherThan(ids: set<string>): Ceremony -> bool { (c: Ceremony) => c.id !in ids }

  function Both<T>(p: T -> bool, q: T -> bool): T -> bool { (x: T) => p(x) && q(x) }

  function Ids(ids: seq<string>): set<string> { set id | id in ids }

  lemma IdsStep(ids: seq<string>, i: nat)
    requires i < |ids|
    ensures Ids(ids[..i + 1]) == Ids(ids[..i]) + {ids[i]}
  {
    assert ids[..i + 1] == ids[..i] + [ids[i]];
  }

  lemma {:induction false} SelectSame<T>(rows: seq<T>, p: T -> bool, q: T -> bool)
    requires forall x :: x in rows ==> p(x) == q(x)
    ensures Select(rows, p) == Select(rows, q)
  {
    if rows != [] {
      assert forall x :: x in rows[..|rows| - 1] ==> x in rows;
      SelectSame(rows[..|rows| - 1], p, q);
    }
  }

  lemma {:induction false} SelectAll<T>(rows: seq<T>, p: T -> bool)
    requires forall x :: x in rows ==> p(x)
    ensures Select(rows, p) == rows
  {
    if rows != [] {
      assert forall x :: x in rows[..|rows| - 1] ==> x in rows;
      SelectAll(rows[..|rows| - 1], p);
    }
  }

  lemma {:induction false} SelectTwice<T>(rows: seq<T>, p: T -> bool, q: T -> bool)
    ensures Select(Select(rows, p), q) == Select(rows, Both(p, q))
  {
    if rows != [] {
      var init, last := rows[..|rows| - 1], rows[|rows| - 1];
      SelectTwice(init, p, q);
      SelectAppend(Select(init, p), last, q);
    }
  }

  lemma SelectWithoutOneMore(items: seq<Ceremony>, dead: seq<string>, i: nat)
    requires i < |dead|
    ensures Select(Select(items, OtherThan(Ids(dead[..i]))), OtherThan({dead[i]})) == Select(items, OtherThan(Ids(dead[..i + 1])))
  {
    var p, q := OtherThan(Ids(dead[..i])), OtherThan({dead[i]});
    SelectTwice(items, p, q);
    IdsStep(dead, i);
    SelectSame(items, Both(p, q), OtherThan(Ids(dead[..i + 1])));
  }

  /** One entry per id, so an id is on the list exactly when its entry is dead. */
  lemma DeadIdsAreOfDead(items: seq<Ceremony>, now: real, dead: seq<string>)
    requires Sound(items)
    requires forall id :: id in dead <==> exists k :: 0 <= k < |items| && items[k].id == id && !Alive(now)(items[k])
    ensures forall c :: c in items ==> OtherThan(Ids(dead))(c) == Alive(now)(c)
  {
    forall c | c in items ensures c.id in dead <==> !Alive(now)(c) {
      var i :| 0 <= i < |items| && items[i] == c;
    }
  }

  lemma {:induction false} SelectConcat<T>(left: seq<T>, right: seq<T>, p: T -> bool)
    ensures Select(left + right, p) == Select(left, p) + Select(right, p)
  {
    if right == [] {
      assert left + right == left;
    } else {
      var init, last := right[..|right| - 1], right[|right| - 1];
      SelectConcat(left, init, p);
      assert left + right == (left + init) + [last];
      SelectAppend(left + init, last, p);
    }
  }

  lemma SelectAllButOne(items: seq<Ceremony>, i: nat)
    requires Sound(items) && i < |items|
    ensures Select(items, OtherThan({items[i].id})) == items[..i] + items[i + 1..]
  {
    var p := OtherThan({items[i].id});
    var front, back := items[..i], items[i + 1..];
    SelectAll(front, p);
    SelectAll(back, p);
    SelectAppend(front, items[i], p);
    SelectConcat(front + [items[i]], back, p);
    assert items == front + [items[i]] + back;
  }
}
