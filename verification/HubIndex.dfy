// The hub's connection lists, replay buffers and the two-way index of mini
// program subscriptions, with the handling of Register, Unregister, stale
// connection clean-up and fan-out.

module HubIndex {
  import opened Prelude
  import DispatchBuffer

  const NUL: char := '\0'

  /** The channel of (appid, coll). */
  function MpChannelKey(appid: string, coll: string): string {
    appid + [NUL] + coll
  }

  function ClientKey(role: string, id: string): string {
    role + ":" + id
  }

  /** A connection: what it is for, and a number that tells it from every other one. */
  datatype Conn = Conn(role: string, id: string, serial: nat)

  function KeyOf(c: Conn): string {
    ClientKey(c.role, c.id)
  }

  /** The list without c. */
  function Dropped(list: seq<Conn>, c: Conn): (r: seq<Conn>)
    ensures forall x :: x in r <==> x in list && x != c
    ensures c !in list ==> r == list
  {
    if list == [] then []
    else
      var rest := Dropped(list[..|list| - 1], c);
      if list[|list| - 1] == c then rest else rest + [list[|list| - 1]]
  }

  predicate Stale(c: Conn, heartbeat: map<Conn, int>, now: int, timeout: int) {
    c in heartbeat ==> now - heartbeat[c] > timeout
  }

  /** The connections heard from within the timeout, in list order. */
  function Alive(list: seq<Conn>, heartbeat: map<Conn, int>, now: int, timeout: int): (r: seq<Conn>)
    ensures forall x :: x in r <==> x in list && !Stale(x, heartbeat, now, timeout)
  {
    if list == [] then []
    else
      var rest := Alive(list[..|list| - 1], heartbeat, now, timeout);
      var c := list[|list| - 1];
      if Stale(c, heartbeat, now, timeout) then rest else rest + [c]
  }

  /** The keys of the channels of appid named in colls. */
  function KeysOf(appid: string, colls: seq<string>): set<string> {
    set coll <- colls :: MpChannelKey(appid, coll)
  }

  predicate InChannel(channels: map<string, set<Conn>>, c: Conn, key: string) {
    key in channels && c in channels[key]
  }

  predicate HasKey(chans: map<Conn, set<string>>, c: Conn, key: string) {
    c in chans && key in chans[c]
  }

  predicate InList(clients: map<string, seq<Conn>>, c: Conn) {
    KeyOf(c) in clients && c in clients[KeyOf(c)]
  }

  /** The two maps say the same thing, and neither keeps an empty set. */
  ghost predicate Indexed(channels: map<string, set<Conn>>, chans: map<Conn, set<string>>) {
    && (forall c, key :: InChannel(channels, c, key) <==> HasKey(chans, c, key))
    && (forall key <- channels :: channels[key] != {})
    && (forall c <- chans :: chans[c] != {})
  }

  /** Every list is stored under its connections' key and is not empty. */
  ghost predicate Listed(clients: map<string, seq<Conn>>) {
    forall key <- clients :: clients[key] != [] && forall c <- clients[key] :: KeyOf(c) == key
  }

  /** The lists with the stale connections gone, and the emptied lists with them; the keys of todo are not visited yet. */
  function Swept(clients: map<string, seq<Conn>>, todo: set<string>, hb: map<Conn, int>, now: int, timeout: int): map<string, seq<Conn>> {
    map key <- clients | key in todo || Alive(clients[key], hb, now, timeout) != [] ::
      if key in todo then clients[key] else Alive(clients[key], hb, now, timeout)
  }

  function StaleOf(list: seq<Conn>, hb: map<Conn, int>, now: int, timeout: int): set<Conn> {
    set x <- list | Stale(x, hb, now, timeout)
  }

  /** The stale connections of the lists already visited. */
  function StaleIn(clients: map<string, seq<Conn>>, todo: set<string>, hb: map<Conn, int>, now: int, timeout: int): set<Conn> {
    set key <- clients, x <- clients[key] | key !in todo && Stale(x, hb, now, timeout) :: x
  }

  /** The lists once c is gone: the emptied one goes too. */
  function ClientsLeft(clients: map<string, seq<Conn>>, c: Conn): map<string, seq<Conn>> {
    var key := KeyOf(c);
    if key !in clients then clients
    else if Dropped(clients[key], c) == [] then clients - {key}
    else clients[key := Dropped(clients[key], c)]
  }

  /** A key's buffer goes with the last of its listed connections. */
  function BuffersLeft(clients: map<string, seq<Conn>>, buffers: map<string, seq<DispatchBuffer.Msg>>, c: Conn): map<string, seq<DispatchBuffer.Msg>> {
    if KeyOf(c) in clients && Dropped(clients[KeyOf(c)], c) == [] then buffers - {KeyOf(c)} else buffers
  }

  /** The buffers after n copies of msg have entered the one of key. */
  function Buffered(buffers: map<string, seq<DispatchBuffer.Msg>>, key: string, msg: DispatchBuffer.Msg, n: nat): map<string, seq<DispatchBuffer.Msg>> {
    var was := if key in buffers then buffers[key] else [];
    buffers[key := DispatchBuffer.LastOf(was + DispatchBuffer.Copies(msg, n), DispatchBuffer.BUFFER_SIZE)]
  }

  class Hub {
    var clients: map<string, seq<Conn>>
    var buffers: map<string, seq<DispatchBuffer.Msg>>
    var mpChannels: map<string, set<Conn>>
    var mpClientChans: map<Conn, set<string>>
    var heartbeat: map<Conn, int>
    var closed: set<Conn>

    ghost predicate Valid()
      reads this
    {
      Indexed(mpChannels, mpClientChans) && Listed(clients)
    }

    constructor ()
      ensures Valid() && clients == map[] && buffers == map[] && mpChannels == map[] && mpClientChans == map[]
    {
      clients, buffers, mpChannels, mpClientChans, heartbeat, closed := map[], map[], map[], map[], map[], {};
    }

    // -------------------------------------------------------- subscriptions

    method SubscribeMp(c: Conn, appid: string, colls: seq<string>)
      requires Valid()
      modifies this`mpChannels, this`mpClientChans
      ensures Valid()
      ensures forall x, key :: InChannel(mpChannels, x, key) <==>
                InChannel(old(mpChannels), x, key) || (x == c && key in KeysOf(appid, colls))
    {
      for i := 0 to |colls|
        invariant Valid()
        invariant forall x, key :: InChannel(mpChannels, x, key) <==>
                    InChannel(old(mpChannels), x, key) || (x == c && key in KeysOf(appid, colls[..i]))
      {
        var key := MpChannelKey(appid, colls[i]);
        KeysGrow(appid, colls, i);
        Linked(mpChannels, mpClientChans, c, key);
        mpChannels := mpChannels[key := (if key in mpChannels then mpChannels[key] else {}) + {c}];
        mpClientChans := mpClientChans[c := (if c in mpClientChans then mpClientChans[c] else {}) + {key}];
      }
      assert colls[..|colls|] == colls;
    }

    /** Out of every channel, walking only the connection's own channels. */
    method UnsubscribeMp(c: Conn)
      requires Valid()
      modifies this`mpChannels, this`mpClientChans
      ensures Valid()
      ensures forall x, key :: InChannel(mpChannels, x, key) <==> InChannel(old(mpChannels), x, key) && x != c
      ensures mpClientChans == old(mpClientChans) - {c}
      ensures c !in old(mpClientChans) ==> mpChannels == old(mpChannels)
    {
      if c !in mpClientChans {
        assert forall key :: !HasKey(mpClientChans, c, key);
        return;
      }
      var todo := mpClientChans[c];
      while todo != {}
        invariant c in mpClientChans && mpClientChans == old(mpClientChans) && todo <= mpClientChans[c]
        invariant forall key <- mpChannels :: mpChannels[key] != {}
        invariant forall x, key :: InChannel(mpChannels, x, key) <==>
                    InChannel(old(mpChannels), x, key) && (x != c || key in todo)
      {
        var key :| key in todo;
        todo := todo - {key};
        Unlinked(mpChannels, c, key);
        if key in mpChannels {
          var rest := mpChannels[key] - {c};
          mpChannels := if rest == {} then mpChannels - {key} else mpChannels[key := rest];
        }
      }
      mpClientChans := mpClientChans - {c};
      assert forall x, key :: HasKey(mpClientChans, x, key) <==> HasKey(old(mpClientChans), x, key) && x != c;
    }

    /** The subscribers a fan-out goes to: each of them once. */
    method Subscribers(appid: string, coll: string) returns (subs: seq<Conn>)
      ensures forall c :: c in subs <==> InChannel(mpChannels, c, MpChannelKey(appid, coll))
      ensures Distinct(subs)
    {
      var key := MpChannelKey(appid, coll);
      var rest := if key in mpChannels then mpChannels[key] else {};
      subs := [];
      while rest != {}
        invariant forall c :: c in subs || c in rest <==> InChannel(mpChannels, c, key)
        invariant forall c :: c in subs ==> c !in rest
        invariant Distinct(subs)
      {
        var c :| c in rest;
        subs := subs + [c];
        rest := rest - {c};
      }
    }

    // ---------------------------------------------------------- connections

    method Register(c: Conn)
      requires Valid()
      modifies this`clients
      ensures Valid()
      ensures clients == old(clients)[KeyOf(c) := (if KeyOf(c) in old(clients) then old(clients)[KeyOf(c)] else []) + [c]]
    {
      var key := KeyOf(c);
      var list := if key in clients then clients[key] else [];
      clients := clients[key := list + [c]];
    }

    /** One connection is gone: out of its list and of every channel; the last one takes the replay buffer with it. */
    method Unregister(c: Conn)
      requires Valid()
      modifies this
      ensures Valid()
      ensures !InList(clients, c) && c in closed
      ensures forall key :: !InChannel(mpChannels, c, key)
      ensures c !in mpClientChans
      ensures forall x, key :: x != c ==> (InChannel(mpChannels, x, key) <==> InChannel(old(mpChannels), x, key))
      ensures forall x :: x != c ==> (InList(clients, x) <==> InList(old(clients), x))
      ensures clients == ClientsLeft(old(clients), c) && buffers == BuffersLeft(old(clients), old(buffers), c)
      ensures !InList(old(clients), c) && c !in old(mpClientChans) ==>
                clients == old(clients) && mpChannels == old(mpChannels) && mpClientChans == old(mpClientChans)
    {
      var key := KeyOf(c);
      if key in clients {
        var filtered := Dropped(clients[key], c);
        if filtered == [] {
          clients := clients - {key};
          buffers := buffers - {key};
        } else {
          clients := clients[key := filtered];
        }
      }
      UnsubscribeMp(c);
      closed := closed + {c};
    }

    /** Close stale connections and drop them from their lists; their subscriptions stay until Unregister, which then leaves the buffer behind. */
    method GcStaleClients(now: int, timeout: int)
      requires Valid()
      modifies this`clients, this`closed
      ensures Valid()
      ensures clients == Swept(old(clients), {}, heartbeat, now, timeout)
      ensures closed == old(closed) + StaleIn(old(clients), {}, heartbeat, now, timeout)
      ensures forall c :: InList(old(clients), c) && c in heartbeat && now - heartbeat[c] <= timeout ==>
                InList(clients, c) && (c in closed ==> c in old(closed))
      ensures forall c :: InList(old(clients), c) && (c in heartbeat ==> now - heartbeat[c] > timeout) ==>
                c in closed && forall key <- clients :: c !in clients[key]
      ensures (forall c :: InList(old(clients), c) ==> c in heartbeat && now - heartbeat[c] <= timeout) ==>
                clients == old(clients) && closed == old(closed)
    {
      var todo := clients.Keys;
      SweepStart(clients, heartbeat, now, timeout);
      while todo != {}
        invariant todo <= old(clients).Keys
        invariant clients == Swept(old(clients), todo, heartbeat, now, timeout)
        invariant closed == old(closed) + StaleIn(old(clients), todo, heartbeat, now, timeout)
      {
        hide *;
        ghost var was := todo;
        var key :| key in todo;
        todo := todo - {key};
        assert was == todo + {key};
        SweptStep(old(clients), todo, key, heartbeat, now, timeout);
        StaleStep(old(clients), todo, key, heartbeat, now, timeout);
        var alive, stale := SplitStale(clients[key], now, timeout);
        closed := closed + stale;
        clients := if alive == [] then clients - {key} else clients[key := alive];
      }
      SweptListed(old(clients), heartbeat, now, timeout);
      SweepByHeartbeat(old(clients), heartbeat, now, timeout);
      hide Swept, StaleIn;
    }

    method SplitStale(list: seq<Conn>, now: int, timeout: int) returns (alive: seq<Conn>, stale: set<Conn>)
      ensures alive == Alive(list, heartbeat, now, timeout)
      ensures stale == StaleOf(list, heartbeat, now, timeout)
    {
      alive, stale := [], {};
      for i := 0 to |list|
        invariant alive == Alive(list[..i], heartbeat, now, timeout)
        invariant stale == StaleOf(list[..i], heartbeat, now, timeout)
      {
        assert list[..i + 1][..i] == list[..i];
        assert list[..i + 1] == list[..i] + [list[i]];
        if Stale(list[i], heartbeat, now, timeout) {
          stale := stale + {list[i]};
        } else {
          alive := alive + [list[i]];
        }
      }
      assert list[..|list|] == list;
    }

    // --------------------------------------------------------------- replay

    /** A dispatch enters the buffer of the connection's key before it is sent; anything else is only sent. */
    method BufferedSend(c: Conn, msg: DispatchBuffer.Msg, isDispatch: bool)
      modifies this`buffers
      ensures buffers == if isDispatch then Buffered(old(buffers), KeyOf(c), msg, 1) else old(buffers)
    {
      if isDispatch {
        var key := KeyOf(c);
        var was := if key in buffers then buffers[key] else [];
        assert DispatchBuffer.Copies(msg, 1) == [msg];
        buffers := buffers[key := DispatchBuffer.LastOf(was + [msg], DispatchBuffer.BUFFER_SIZE)];
      }
    }

    /** One message to every connection of a user or an agent: the key's buffer takes one copy per connection. */
    method SendTo(role: string, id: string, msg: DispatchBuffer.Msg, isDispatch: bool)
      requires Valid()
      modifies this`buffers
      ensures Valid()
      ensures var key := ClientKey(role, id);
              buffers == if isDispatch && key in clients then Buffered(old(buffers), key, msg, |clients[key]|) else old(buffers)
    {
      var key := ClientKey(role, id);
      if key !in clients {
        return;
      }
      var list := clients[key];
      for i := 0 to |list|
        invariant buffers == if isDispatch && i > 0 then Buffered(old(buffers), key, msg, i) else old(buffers)
      {
        assert list[i] in list && KeyOf(list[i]) == key;
        if isDispatch {
          BufferedOnce(old(buffers), key, msg, i);
        }
        BufferedSend(list[i], msg, isDispatch);
      }
    }

    method GetMissedMessages(role: string, id: string, afterSeq: int) returns (missed: seq<seq<int>>)
      ensures missed == if ClientKey(role, id) in buffers
                        then DispatchBuffer.After(buffers[ClientKey(role, id)], afterSeq) else []
    {
      var key := ClientKey(role, id);
      missed := if key in buffers then DispatchBuffer.After(buffers[key], afterSeq) else [];
    }
  }

  lemma KeysGrow(appid: string, colls: seq<string>, i: nat)
    requires i < |colls|
    ensures KeysOf(appid, colls[..i + 1]) == KeysOf(appid, colls[..i]) + {MpChannelKey(appid, colls[i])}
  {
    assert colls[..i + 1] == colls[..i] + [colls[i]];
  }

  lemma SweepStart(clients: map<string, seq<Conn>>, hb: map<Conn, int>, now: int, timeout: int)
    ensures Swept(clients, clients.Keys, hb, now, timeout) == clients
    ensures StaleIn(clients, clients.Keys, hb, now, timeout) == {}
  {
    hide Alive, Stale;
  }

  lemma SweptListed(clients: map<string, seq<Conn>>, hb: map<Conn, int>, now: int, timeout: int)
    requires Listed(clients)
    ensures Listed(Swept(clients, {}, hb, now, timeout))
  {
    hide Alive, Stale;
  }

  lemma SweptStep(clients: map<string, seq<Conn>>, todo: set<string>, key: string, hb: map<Conn, int>, now: int, timeout: int)
    requires key in clients && key !in todo
    ensures var before := Swept(clients, todo + {key}, hb, now, timeout);
            var alive := Alive(clients[key], hb, now, timeout);
            && key in before && before[key] == clients[key]
            && Swept(clients, todo, hb, now, timeout) == if alive == [] then before - {key} else before[key := alive]
  {
    hide Alive;
    var before := Swept(clients, todo + {key}, hb, now, timeout);
    var after := Swept(clients, todo, hb, now, timeout);
    var alive := Alive(clients[key], hb, now, timeout);
    assert forall k :: k != key ==> (k in after <==> k in before) && (k in after ==> after[k] == before[k]);
    assert key in after <==> alive != [];
  }

  lemma StaleStep(clients: map<string, seq<Conn>>, todo: set<string>, key: string, hb: map<Conn, int>, now: int, timeout: int)
    requires key in clients && key !in todo
    ensures StaleIn(clients, todo, hb, now, timeout) ==
            StaleIn(clients, todo + {key}, hb, now, timeout) + StaleOf(clients[key], hb, now, timeout)
  {
    hide Stale;
  }

  /**
   * A sweep in terms of heartbeats: a listed connection heard from within the
   * timeout stays listed and is not closed, any other is closed and in no
   * list; if all were heard from, nothing changes.
   */
  lemma SweepByHeartbeat(clients: map<string, seq<Conn>>, hb: map<Conn, int>, now: int, timeout: int)
    requires Listed(clients)
    ensures var swept, closed := Swept(clients, {}, hb, now, timeout), StaleIn(clients, {}, hb, now, timeout);
            && (forall c :: InList(clients, c) && c in hb && now - hb[c] <= timeout ==> InList(swept, c) && c !in closed)
            && (forall c :: InList(clients, c) && (c in hb ==> now - hb[c] > timeout) ==>
                  c in closed && forall key <- swept :: c !in swept[key])
            && ((forall c :: InList(clients, c) ==> c in hb && now - hb[c] <= timeout) ==> swept == clients && closed == {})
  {
    var swept, closed := Swept(clients, {}, hb, now, timeout), StaleIn(clients, {}, hb, now, timeout);
    SweptListed(clients, hb, now, timeout);
    forall c ensures InList(swept, c) <==> InList(clients, c) && !Stale(c, hb, now, timeout)
             ensures c in closed <==> InList(clients, c) && Stale(c, hb, now, timeout)
    {
      SweepKeepsTheLiving(clients, hb, now, timeout, c);
    }
    hide Swept, StaleIn;
    forall c, key | key in swept && c in swept[key] ensures InList(swept, c) {
      assert KeyOf(c) == key;
    }
    if forall c :: InList(clients, c) ==> c in hb && now - hb[c] <= timeout {
      QuietSweep(clients, hb, now, timeout);
    }
  }

  lemma QuietSweep(clients: map<string, seq<Conn>>, hb: map<Conn, int>, now: int, timeout: int)
    requires Listed(clients) && forall c :: InList(clients, c) ==> !Stale(c, hb, now, timeout)
    ensures Swept(clients, {}, hb, now, timeout) == clients && StaleIn(clients, {}, hb, now, timeout) == {}
  {
    hide Stale;
    forall key | key in clients ensures Alive(clients[key], hb, now, timeout) == clients[key] {
      forall c | c in clients[key] ensures !Stale(c, hb, now, timeout) {
        assert InList(clients, c);
      }
      AllAlive(clients[key], hb, now, timeout);
    }
    hide Alive;
    forall c ensures c !in StaleIn(clients, {}, hb, now, timeout) {
      SweepKeepsTheLiving(clients, hb, now, timeout, c);
    }
  }

  lemma {:induction false} AllAlive(list: seq<Conn>, hb: map<Conn, int>, now: int, timeout: int)
    requires forall c <- list :: !Stale(c, hb, now, timeout)
    ensures Alive(list, hb, now, timeout) == list
  {
    if list != [] {
      AllAlive(list[..|list| - 1], hb, now, timeout);
    }
  }

  /** Dropping a connection from a list neither repeats nor loses another one. */
  lemma {:induction false} DroppedCopies(list: seq<Conn>, c: Conn, x: Conn)
    ensures multiset(Dropped(list, c))[x] == if x == c then 0 else multiset(list)[x]
  {
    if list != [] {
      var n := |list| - 1;
      DroppedCopies(list[..n], c, x);
      assert list == list[..n] + [list[n]];
    }
  }

  /** Nor does a sweep. */
  lemma {:induction false} AliveCopies(list: seq<Conn>, hb: map<Conn, int>, now: int, timeout: int, x: Conn)
    ensures multiset(Alive(list, hb, now, timeout))[x] == if Stale(x, hb, now, timeout) then 0 else multiset(list)[x]
  {
    hide Stale;
    if list != [] {
      var n := |list| - 1;
      AliveCopies(list[..n], hb, now, timeout, x);
      assert list == list[..n] + [list[n]];
    }
  }

  /** After a sweep: nobody in a list is stale, nobody alive is dropped, and subscriptions were not looked at. */
  lemma SweepKeepsTheLiving(clients: map<string, seq<Conn>>, hb: map<Conn, int>, now: int, timeout: int, c: Conn)
    requires Listed(clients)
    ensures Listed(Swept(clients, {}, hb, now, timeout))
    ensures InList(Swept(clients, {}, hb, now, timeout), c) <==> InList(clients, c) && !Stale(c, hb, now, timeout)
    ensures c in StaleIn(clients, {}, hb, now, timeout) <==> InList(clients, c) && Stale(c, hb, now, timeout)
  {
  }

  /** Entering (c, key) in both maps keeps them inverse and adds just that pair. */
  lemma Linked(channels: map<string, set<Conn>>, chans: map<Conn, set<string>>, c: Conn, key: string)
    requires Indexed(channels, chans)
    ensures var channels' := channels[key := (if key in channels then channels[key] else {}) + {c}];
            var chans' := chans[c := (if c in chans then chans[c] else {}) + {key}];
            && Indexed(channels', chans')
            && forall x, k :: InChannel(channels', x, k) <==> InChannel(channels, x, k) || (x == c && k == key)
  {
    var channels' := channels[key := (if key in channels then channels[key] else {}) + {c}];
    var chans' := chans[c := (if c in chans then chans[c] else {}) + {key}];
    forall x, k ensures InChannel(channels', x, k) <==> InChannel(channels, x, k) || (x == c && k == key) {
    }
    forall x, k ensures HasKey(chans', x, k) <==> HasKey(chans, x, k) || (x == c && k == key) {
    }
    assert c in channels'[key] && key in chans'[c];
  }

  lemma Unlinked(channels: map<string, set<Conn>>, c: Conn, key: string)
    ensures key in channels ==>
              var rest := channels[key] - {c};
              var channels' := if rest == {} then channels - {key} else channels[key := rest];
              forall x, k :: InChannel(channels', x, k) <==> InChannel(channels, x, k) && !(x == c && k == key)
  {
  }

  // ----------------------------------------------------------- main results

  lemma FirstNul(a: string, x: string, b: string, y: string)
    requires NUL !in a && NUL !in b && MpChannelKey(a, x) == MpChannelKey(b, y)
    ensures |a| == |b|
  {
    var s, t := MpChannelKey(a, x), MpChannelKey(b, y);
    assert s[|a|] == NUL && t[|b|] == NUL;
    assert forall k :: 0 <= k < |a| ==> s[k] == a[k];
    assert forall k :: 0 <= k < |b| ==> t[k] == b[k];
  }

  /** Different (appid, coll) pairs have different channels, as long as the appids hold no NUL. */
  lemma KeysInjective(a: string, x: string, b: string, y: string)
    requires NUL !in a && NUL !in b
    ensures MpChannelKey(a, x) == MpChannelKey(b, y) <==> a == b && x == y
  {
    if MpChannelKey(a, x) == MpChannelKey(b, y) {
      FirstNul(a, x, b, y);
      var s, t := MpChannelKey(a, x), MpChannelKey(b, y);
      assert s[..|a|] == a && t[..|b|] == b && s[|a| + 1..] == x && t[|b| + 1..] == y;
    }
  }

  /** With a NUL in an appid two different pairs can meet. */
  lemma KeysClash(a: string, b: string, c: string)
    ensures MpChannelKey(a, b + [NUL] + c) == MpChannelKey(a + [NUL] + b, c)
    ensures a != a + [NUL] + b
  {
    assert a + [NUL] + (b + [NUL] + c) == (a + [NUL] + b) + [NUL] + c;
    assert |a + [NUL] + b| > |a|;
  }

  const COLON: char := ':'

  /** The lists and buffers of two clients are apart, as long as roles hold no colon; both roles in use do not. */
  lemma ClientsApart(role: string, id: string, role': string, id': string)
    requires COLON !in role && COLON !in role'
    ensures ClientKey(role, id) == ClientKey(role', id') <==> role == role' && id == id'
  {
    var s, t := ClientKey(role, id), ClientKey(role', id');
    assert s[|role|] == COLON && t[|role'|] == COLON;
    assert forall k :: 0 <= k < |role| ==> s[k] == role[k];
    assert forall k :: 0 <= k < |role'| ==> t[k] == role'[k];
    if s == t {
      assert |role| == |role'|;
      assert s[..|role|] == role && t[..|role'|] == role' && s[|role| + 1..] == id && t[|role'| + 1..] == id';
    }
  }

  // ---------------------------------------------------- buffers left behind

  /**
   * A connection that the sweep has closed no longer takes its buffer along:
   * the buffer of a key whose last connection was swept stays, while without
   * the sweep that connection's Unregister drops it.
   */
  lemma SweptBufferStays(clients: map<string, seq<Conn>>, buffers: map<string, seq<DispatchBuffer.Msg>>,
                         hb: map<Conn, int>, now: int, timeout: int, c: Conn)
    requires Listed(clients) && InList(clients, c) && Stale(c, hb, now, timeout)
    ensures BuffersLeft(Swept(clients, {}, hb, now, timeout), buffers, c) == buffers
    ensures BuffersLeft(clients, buffers, c) == if forall x <- clients[KeyOf(c)] :: x == c then buffers - {KeyOf(c)} else buffers
  {
    hide Stale;
    var key := KeyOf(c);
    SweepKeepsTheLiving(clients, hb, now, timeout, c);
    DroppedAll(clients[key], c);
    var swept := Swept(clients, {}, hb, now, timeout);
    if key in swept {
      assert c !in swept[key];
      assert Dropped(swept[key], c) == swept[key] != [];
    }
  }

  lemma DroppedAll(list: seq<Conn>, c: Conn)
    ensures Dropped(list, c) == [] <==> forall x <- list :: x == c
  {
    var left := Dropped(list, c);
    if left != [] {
      var x := left[0];
      assert x in left && x in list && x != c;
    }
  }

  lemma BufferedOnce(buffers: map<string, seq<DispatchBuffer.Msg>>, key: string, msg: DispatchBuffer.Msg, n: nat)
    ensures Buffered(if n == 0 then buffers else Buffered(buffers, key, msg, n), key, msg, 1) == Buffered(buffers, key, msg, n + 1)
  {
    hide DispatchBuffer.LastOf;
    var was := if key in buffers then buffers[key] else [];
    DispatchBuffer.LastOfLast(was + DispatchBuffer.Copies(msg, n), DispatchBuffer.Copies(msg, 1));
    assert was + DispatchBuffer.Copies(msg, n) + DispatchBuffer.Copies(msg, 1) == was + DispatchBuffer.Copies(msg, n + 1);
    assert n == 0 ==> was + DispatchBuffer.Copies(msg, 1) == was + DispatchBuffer.Copies(msg, n + 1);
  }
}
