/**
 * The relay server (cmd/cheatguessr/main.go): a registry mapping each connected
 * client to its ident, owned by one goroutine that applies queued closures to it
 * in arrival order; the per-connection handler; the bot feed; and the static file
 * system that falls back to the single-page app's index.
 *
 * Channels are modelled by client identifiers, and the goroutine/channel actor by
 * the sequential application of its closures. A broadcast returns the set of
 * clients it offers the guess to; whether an offered guess is taken (the send is
 * non-blocking) is left to the transport.
 */
module Relay {
  import opened Wrappers

  /** A client's outbound channel, identified by its identity. */
  type ClientId = nat

  /** `OpCode`: any string may arrive; these are the ones the server writes. */
  type OpCode = string

  const OP_CONNECT: OpCode := "connect"
  const OP_DISCONNECT: OpCode := "disconnect"
  const OP_MESSAGE: OpCode := "message"
  const OP_BOT: OpCode := "bot"

  datatype LatLng = LatLng(lat: real, lng: real)

  /** The wire guess. */
  datatype Guess = Guess(location: LatLng, distance: real, ident: string, op: OpCode)

  /** The registry `llClients`: client to ident. */
  type Registry = map<ClientId, string>

  /** The closures queued to the registry goroutine by `add`, `rem` and `send`. */
  datatype Update = Add(client: ClientId, ident: string) | Rem(client: ClientId) | Send(guess: Guess)

  /** `Guess{Ident: ident, Op: op}`: the other fields take Go's zero values. */
  function Announcement(ident: string, op: OpCode): (g: Guess)
    ensures g.ident == ident && g.op == op
    ensures g.location == LatLng(0.0, 0.0) && g.distance == 0.0
  {
    Guess(LatLng(0.0, 0.0), 0.0, ident, op)
  }

  /** The clients a broadcast of `g` is offered to: those registered under another ident. */
  function Recipients(m: Registry, g: Guess): (r: set<ClientId>)
    ensures r <= m.Keys
    ensures forall c :: c in r ==> m[c] != g.ident
  {
    set c | c in m && m[c] != g.ident
  }

  /**
   * The sender is never offered its own guess; when idents are unique (as the
   * handler's random idents are meant to be), everybody else is.
   */
  lemma RecipientsAllButSender(m: Registry, g: Guess, s: ClientId)
    requires s in m && m[s] == g.ident
    requires forall c, d :: c in m && d in m && m[c] == m[d] ==> c == d
    ensures s !in Recipients(m, g)
    ensures Recipients(m, g) == m.Keys - {s}
  {
  }

  /** What one closure does to the registry. */
  function Apply(m: Registry, u: Update): (r: Registry)
    ensures u.Send? ==> r == m
    ensures u.Add? ==> u.client in r && r[u.client] == u.ident
    ensures u.Rem? ==> u.client !in r
  {
    match u
    case Add(c, ident) => m[c := ident]
    case Rem(c) => m - {c}
    case Send(_) => m
  }

  /**
   * The registry after the goroutine has applied `us` in order; the last
   * closure decides the entry it names.
   */
  function Replay(m: Registry, us: seq<Update>): (r: Registry)
    ensures |us| > 0 && us[|us| - 1].Add? ==>
      us[|us| - 1].client in r && r[us[|us| - 1].client] == us[|us| - 1].ident
    ensures |us| > 0 && us[|us| - 1].Rem? ==> us[|us| - 1].client !in r
    decreases |us|
  {
    if us == [] then m else Replay(Apply(m, us[0]), us[1..])
  }

  /** `add` sets the client's ident and touches no other key; `rem` drops the client only. */
  lemma ApplyRegistration(m: Registry, u: Update, d: ClientId)
    requires !u.Send?
    ensures u.Add? && d == u.client ==> d in Apply(m, u) && Apply(m, u)[d] == u.ident
    ensures u.Add? && d != u.client ==> (d in Apply(m, u) <==> d in m)
    ensures u.Rem? ==> (d in Apply(m, u) <==> d in m && d != u.client)
    ensures d != u.client && d in m ==> Apply(m, u)[d] == m[d]
  {
  }

  /** Replaying two queues one after the other is replaying their concatenation. */
  lemma {:induction false} ReplayAppend(m: Registry, us: seq<Update>, vs: seq<Update>)
    ensures Replay(m, us + vs) == Replay(Replay(m, us), vs)
    decreases |us|
  {
    if us == [] {
      assert us + vs == vs;
    } else {
      assert (us + vs)[1..] == us[1..] + vs;
      ReplayAppend(Apply(m, us[0]), us[1..], vs);
    }
  }

  /** The goroutine's registry after one more closure. */
  lemma ReplaySnoc(m: Registry, us: seq<Update>, i: nat)
    requires i < |us|
    ensures Replay(m, us[..i + 1]) == Apply(Replay(m, us[..i]), us[i])
  {
    assert us[..i + 1] == us[..i] + [us[i]];
    ReplayAppend(m, us[..i], [us[i]]);
    assert [us[i]][1..] == [];
  }

  /** Broadcasts leave the registry as it is. */
  lemma {:induction false} ReplaySendsOnly(m: Registry, us: seq<Update>)
    requires forall i :: 0 <= i < |us| ==> us[i].Send?
    ensures Replay(m, us) == m
    decreases |us|
  {
    if us != [] {
      ReplaySendsOnly(m, us[1..]);
    }
  }

  /** `u` is an `add` or a `rem` of client `d`. */
  predicate Registers(u: Update, d: ClientId) {
    (u.Add? || u.Rem?) && u.client == d
  }

  /**
   * Whatever the interleaving, a client's entry is changed only by its own
   * `add` and `rem`: other connections' closures leave it as it was.
   */
  lemma {:induction false} ReplayFrame(m: Registry, us: seq<Update>, d: ClientId)
    requires forall i :: 0 <= i < |us| ==> !Registers(us[i], d)
    ensures d in Replay(m, us) <==> d in m
    ensures d in m ==> Replay(m, us)[d] == m[d]
    decreases |us|
  {
    if us != [] {
      assert !Registers(us[0], d);
      ReplayFrame(Apply(m, us[0]), us[1..], d);
    }
  }

  /** `ll.Ident = ident; ll.Op = OpCodeMessage`: the connection's own stamp on a relayed guess. */
  function Stamp(g: Guess, ident: string): (r: Guess)
    ensures r.ident == ident && r.op == OP_MESSAGE
    ensures r.location == g.location && r.distance == g.distance
  {
    g.(ident := ident).(op := OP_MESSAGE)
  }

  /** Whatever ident and opcode the client put in its message, the relayed guess is the same. */
  lemma StampIgnoresClaims(g: Guess, h: Guess, ident: string)
    requires g.location == h.location && g.distance == h.distance
    ensures Stamp(g, ident) == Stamp(h, ident)
  {
  }

  /** The bot's guess for a decoded location. */
  function BotGuess(ll: LatLng, name: string): (g: Guess)
    ensures g.location == ll && g.distance == 0.0 && g.ident == name && g.op == OP_BOT
  {
    Guess(ll, 0.0, name, OP_BOT)
  }

  /**
   * The read loop of a connection: each frame that decodes (`Some`) is stamped and
   * relayed; the first frame that does not ends the loop.
   */
  method ReadLoop(ident: string, frames: seq<Option<Guess>>) returns (relayed: seq<Guess>)
    ensures |relayed| <= |frames|
    ensures forall i :: 0 <= i < |relayed| ==> frames[i].Some? && relayed[i] == Stamp(frames[i].value, ident)
    ensures |relayed| < |frames| ==> frames[|relayed|].None?
  {
    relayed := [];
    var i := 0;
    while i < |frames| && frames[i].Some?
      invariant 0 <= i <= |frames| && |relayed| == i
      invariant forall j :: 0 <= j < i ==> frames[j].Some? && relayed[j] == Stamp(frames[j].value, ident)
    {
      var ll := frames[i].value;
      ll := ll.(ident := ident);
      ll := ll.(op := OP_MESSAGE);
      relayed := relayed + [ll];
      i := i + 1;
    }
  }

  /**
   * The read loop of the bot made by `openSocket`: each message that decodes as a
   * location becomes a bot guess; the first that does not ends the connection.
   */
  method BotFeed(name: string, messages: seq<Option<LatLng>>) returns (sent: seq<Guess>)
    ensures |sent| <= |messages|
    ensures forall i :: 0 <= i < |sent| ==> messages[i].Some? && sent[i] == BotGuess(messages[i].value, name)
    ensures |sent| < |messages| ==> messages[|sent|].None?
  {
    sent := [];
    var i := 0;
    while i < |messages|
      invariant 0 <= i <= |messages| && |sent| == i
      invariant forall j :: 0 <= j < i ==> messages[j].Some? && sent[j] == BotGuess(messages[j].value, name)
    {
      if messages[i].None? {
        return;
      }
      var g := Guess(messages[i].value, 0.0, name, OP_BOT);
      sent := sent + [g];
      i := i + 1;
    }
  }

  /** The closures one connection queues, in order, when its guesses are `relayed`. */
  function Session(c: ClientId, ident: string, relayed: seq<Guess>): (us: seq<Update>)
    ensures |us| == |relayed| + 4
  {
    [Send(Announcement(ident, OP_CONNECT)), Add(c, ident)]
      + seq(|relayed|, i requires 0 <= i < |relayed| => Send(relayed[i]))
      + [Rem(c), Send(Announcement(ident, OP_DISCONNECT))]
  }

  /**
   * The connect guess is queued before the client is added, and the disconnect
   * guess after it is removed; a fresh client that has come and gone leaves the
   * registry as it found it.
   */
  lemma SessionRestores(m: Registry, c: ClientId, ident: string, relayed: seq<Guess>)
    requires c !in m
    ensures Replay(m, Session(c, ident, relayed)) == m
  {
    var sends := seq(|relayed|, i requires 0 <= i < |relayed| => Send(relayed[i]));
    var head, tail := [Send(Announcement(ident, OP_CONNECT)), Add(c, ident)], [Rem(c), Send(Announcement(ident, OP_DISCONNECT))];
    assert Session(c, ident, relayed) == head + sends + tail;
    ReplayAppend(m, head + sends, tail);
    ReplayAppend(m, head, sends);
    ReplayConnect(m, c, ident, head[0]);
    ReplaySendsOnly(m[c := ident], sends);
    ReplayDisconnect(m[c := ident], c, tail[1]);
    assert m[c := ident] - {c} == m;
  }

  /** A broadcast followed by `add c`. */
  lemma ReplayConnect(m: Registry, c: ClientId, ident: string, u: Update)
    requires u.Send?
    ensures Replay(m, [u, Add(c, ident)]) == m[c := ident]
  {
    assert [u, Add(c, ident)][1..] == [Add(c, ident)];
    assert [Add(c, ident)][1..] == [];
    assert Replay(m, [u, Add(c, ident)]) == Replay(m, [Add(c, ident)]);
    assert Replay(m, [Add(c, ident)]) == Replay(m[c := ident], []);
  }

  /** `rem c` followed by a broadcast. */
  lemma ReplayDisconnect(m: Registry, c: ClientId, u: Update)
    requires u.Send?
    ensures Replay(m, [Rem(c), u]) == m - {c}
  {
    assert [Rem(c), u][1..] == [u];
    assert [u][1..] == [];
    assert Replay(m, [Rem(c), u]) == Replay(m - {c}, [u]);
    assert Replay(m - {c}, [u]) == Replay(m - {c}, []);
  }

  /** `EmbedDir.Open`'s result: a file, or an error. */
  datatype Opened<F> = File(file: F) | Failed

  /** `EmbedDir.Open`: open `name`, falling back to the app's index when that fails. */
  function Open<F>(open: string -> Opened<F>, name: string): (r: Opened<F>)
    ensures r == open(name) || r == open("/index.html")
    ensures r.File? <==> open(name).File? || open("/index.html").File?
  {
    if open(name).File? then open(name) else open("/index.html")
  }

  /**
   * A name that opens is served as itself; any other is served the index, so
   * while the index exists every request is answered with a file.
   */
  lemma OpenFallback<F>(open: string -> Opened<F>, name: string)
    ensures open(name).File? ==> Open(open, name) == open(name)
    ensures open(name).Failed? ==> Open(open, name) == open("/index.html")
    ensures open("/index.html").File? ==> Open(open, name).File?
    ensures Open(open, name).Failed? <==> open(name).Failed? && open("/index.html").Failed?
  {
  }

  /** The registry goroutine with its `add`, `rem` and `send` closures. */
  class Hub {
    var clients: Registry

    /** `make(llClients)`. */
    constructor ()
      ensures clients == map[]
    {
      clients := map[];
    }

    /** `add`: register `c` under `ident`. */
    method Add(c: ClientId, ident: string)
      modifies this
      ensures clients == Apply(old(clients), Update.Add(c, ident))
      ensures c in clients && clients[c] == ident
      ensures forall d :: d != c ==> (d in clients <==> d in old(clients))
      ensures forall d :: d != c && d in clients ==> clients[d] == old(clients)[d]
    {
      clients := clients[c := ident];
    }

    /** `rem`: deregister `c`; nothing happens if it is not registered. */
    method Rem(c: ClientId)
      modifies this
      ensures clients == Apply(old(clients), Update.Rem(c))
      ensures c !in clients && clients.Keys == old(clients).Keys - {c}
      ensures forall d :: d in clients ==> clients[d] == old(clients)[d]
    {
      clients := clients - {c};
    }

    /** `send`: walk the registry, offering `g` to every client with another ident. */
    method Send(g: Guess) returns (offered: set<ClientId>)
      ensures offered == Recipients(clients, g)
    {
      offered := {};
      var rest := clients.Keys;
      while rest != {}
        invariant rest <= clients.Keys
        invariant offered == Recipients(clients, g) - rest
        decreases rest
      {
        var c :| c in rest;
        if clients[c] != g.ident {
          offered := offered + {c};
        }
        rest := rest - {c};
      }
    }

    /** Apply one queued closure; a broadcast reports whom it offered its guess to. */
    method Step(u: Update) returns (offered: set<ClientId>)
      modifies this
      ensures clients == Apply(old(clients), u)
      ensures offered == if u.Send? then Recipients(old(clients), u.guess) else {}
    {
      match u
      case Add(c, ident) =>
        Add(c, ident);
        offered := {};
      case Rem(c) =>
        Rem(c);
        offered := {};
      case Send(g) =>
        offered := Send(g);
    }

    /** The goroutine's loop: apply the queued closures in arrival order. */
    method Run(us: seq<Update>) returns (offers: seq<set<ClientId>>)
      modifies this
      ensures clients == Replay(old(clients), us)
      ensures |offers| == |us|
      ensures forall i :: 0 <= i < |us| ==>
        offers[i] == if us[i].Send? then Recipients(Replay(old(clients), us[..i]), us[i].guess) else {}
    {
      offers := [];
      var i := 0;
      while i < |us|
        invariant 0 <= i <= |us| && |offers| == i
        invariant clients == Replay(old(clients), us[..i])
        invariant forall j :: 0 <= j < i ==>
          offers[j] == if us[j].Send? then Recipients(Replay(old(clients), us[..j]), us[j].guess) else {}
      {
        ReplaySnoc(old(clients), us, i);
        var o := Step(us[i]);
        offers := offers + [o];
        i := i + 1;
      }
      assert us[..|us|] == us;
    }

    /**
     * The connection handler, run alone: announce the connect, register, relay
     * what the read loop decodes, then deregister and announce the disconnect.
     * The new client is offered none of its own guesses, and the registry is
     * left as it was.
     */
    method Handle(c: ClientId, ident: string, frames: seq<Option<Guess>>)
      returns (relayed: seq<Guess>, offers: seq<set<ClientId>>)
      requires c !in clients
      modifies this
      ensures clients == Replay(old(clients), Session(c, ident, relayed)) && clients == old(clients)
      ensures |relayed| <= |frames|
      ensures forall i :: 0 <= i < |relayed| ==>
        frames[i].Some? && relayed[i] == Stamp(frames[i].value, ident)
      ensures |relayed| < |frames| ==> frames[|relayed|].None?
      ensures |offers| == |relayed| + 2
      ensures offers[0] == Recipients(old(clients), Announcement(ident, OP_CONNECT))
      ensures forall i :: 0 <= i < |relayed| ==> offers[i + 1] == Recipients(old(clients)[c := ident], relayed[i])
      ensures offers[|relayed| + 1] == Recipients(old(clients), Announcement(ident, OP_DISCONNECT))
      ensures forall i :: 0 <= i < |offers| ==> c !in offers[i]
    {
      var hello := Send(Announcement(ident, OP_CONNECT));
      Add(c, ident);
      relayed := ReadLoop(ident, frames);
      offers := [hello];
      var i := 0;
      while i < |relayed|
        invariant 0 <= i <= |relayed| && |offers| == i + 1
        invariant clients == old(clients)[c := ident]
        invariant offers[0] == hello
        invariant forall j :: 0 <= j < i ==> offers[j + 1] == Recipients(old(clients)[c := ident], relayed[j])
      {
        var o := Send(relayed[i]);
        offers := offers + [o];
        i := i + 1;
      }
      Rem(c);
      var bye := Send(Announcement(ident, OP_DISCONNECT));
      offers := offers + [bye];
      forall i | 0 <= i < |offers|
        ensures c !in offers[i]
      {
        if 0 < i < |offers| - 1 {
          assert relayed[i - 1].ident == ident;
        }
      }
      SessionRestores(old(clients), c, ident, relayed);
    }
  }
}
