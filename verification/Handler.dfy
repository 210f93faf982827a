/** internal/conn/handler.go and the exit path of conn.go for one connection: its subs map and the
    channels it is a subscriber of. Rate limits and token checks arrive as their outcomes. */
module Handler {
  import opened Options
  import opened Registry

  const MAX_CHANNELS: nat := 64
  const MAX_SUBS: nat := 10000
  const MAX_RETRIES: nat := 3
  const MAX_NAME: nat := 128

  datatype Reply = Ack | BadChannel | RateLimitedConn | RateLimited | ReservedChannel | AuthReplayed | AuthFailed
                 | LimitChannels | LimitSubscribers | SubscribeFailed | NotSubscribed

  /** The code of an error frame. */
  function Code(reply: Reply): string
    requires !reply.Ack?
  {
    match reply
    case BadChannel => "BAD_CHANNEL"
    case RateLimitedConn => "RATE_LIMITED_CONN"
    case RateLimited => "RATE_LIMITED"
    case ReservedChannel => "RESERVED_CHANNEL"
    case AuthReplayed => "AUTH_REPLAYED"
    case AuthFailed => "AUTH_FAILED"
    case LimitChannels => "LIMIT_CHANNELS"
    case LimitSubscribers => "LIMIT_SUBSCRIBERS"
    case SubscribeFailed => "SUBSCRIBE_FAILED"
    case NotSubscribed => "NOT_SUBSCRIBED"
  }

  datatype Gate = Admitted | ConnEmpty | KeyEmpty
  datatype TokenCheck = TokenOk | TokenReplayed | TokenBad

  const STATS_CHANNEL := Name("_wirefan-stats")

  predicate Reserved(name: Name) { "_" <= name.text }

  predicate RequiresAuth(name: Name) { "private-" <= name.text || "presence-" <= name.text }

  predicate Control(ch: char) { ch < ' ' || ch == 127 as char }

  /** ValidateChannelName. */
  predicate ValidName(name: Name) {
    0 < |name.text| <= MAX_NAME && forall i :: 0 <= i < |name.text| ==> !Control(name.text[i])
  }

  /** allowControl, and the buckets of handlePublish: the connection's own answers before the key's. */
  function Throttled(gate: Gate): Option<Reply> {
    match gate
    case Admitted => None
    case ConnEmpty => Some(RateLimitedConn)
    case KeyEmpty => Some(RateLimited)
  }

  ghost function SubsOf(m: Entries): map<Name, set<nat>>
    reads m.Values`subscribers
  {
    map n | n in m :: m[n].subscribers
  }

  /** hub.Subscribe as every channel sees it: one more subscriber of that name, or an error. */
  ghost predicate Joined(was: map<Name, set<nat>>, now: map<Name, set<nat>>, name: Name, deleted: bool, id: nat,
                         err: Option<SubscribeError>) {
    var on := if name in was then was[name] else {};
    && err == (if deleted then Some(ChannelDeleted) else if |on| >= MAX_SUBS then Some(TooManySubs) else None)
    && now == was[name := if err.None? then on + {id} else on]
  }

  /** The answer handle and handleSubscribe give before the registry is touched, and in this order. */
  function Before(name: Name, held: set<Name>, control: Gate, token: TokenCheck): Option<Reply> {
    if !ValidName(name) then Some(BadChannel)
    else if Reserved(name) && name != STATS_CHANNEL then Some(ReservedChannel)
    else if Throttled(control).Some? then Throttled(control)
    else if name in held then Some(Ack)
    else if RequiresAuth(name) && !token.TokenOk? then Some(if token.TokenReplayed? then AuthReplayed else AuthFailed)
    else if |held| >= MAX_CHANNELS then Some(LimitChannels)
    else None
  }

  /** The hub.Subscribe error an answer reports. */
  function Failed(reply: Reply): Option<SubscribeError> {
    match reply
    case LimitSubscribers => Some(TooManySubs)
    case SubscribeFailed => Some(ChannelDeleted)
    case _ => None
  }

  /** At most 64 channels, each its name's entry, each listing the connection. */
  ghost predicate Holding(subs: Entries, flat: Entries, on: map<Name, set<nat>>, id: nat) {
    |subs.Keys| <= MAX_CHANNELS && forall n :: n in subs ==> Held(subs[n], flat, on, id, n)
  }

  ghost predicate Held(ch: Channel, flat: Entries, on: map<Name, set<nat>>, id: nat, n: Name) {
    n in flat && flat[n] == ch && n in on && id in on[n]
  }

  /** GetOrCreate: the entries stay, and name has one. */
  ghost predicate Entered(flat: Entries, flat': Entries, name: Name) {
    name in flat' && flat' == flat[name := flat'[name]] && (name in flat ==> flat'[name] == flat[name])
  }

  ghost predicate Answered(early: Option<Reply>, reply: Reply, name: Name, id: nat, subs: Entries, subs': Entries,
                           flat: Entries, flat': Entries, on: map<Name, set<nat>>, on': map<Name, set<nat>>)
    reads flat'.Values`deleted
  {
    if early.Some? then reply == early.value && subs' == subs && flat' == flat && on' == on
    else
      && reply in {Ack, LimitSubscribers, SubscribeFailed}
      && Entered(flat, flat', name) && Joined(on, on', name, flat'[name].deleted, id, Failed(reply))
      && subs' == if reply == Ack then subs[name := flat'[name]] else subs
  }

  /** The bookkeeping survives one more subscribe, whether it succeeds or not. */
  lemma HoldingJoined(subs: Entries, flat: Entries, on: map<Name, set<nat>>, flat': Entries, on': map<Name, set<nat>>,
                      name: Name, ch: Channel, id: nat, err: Option<SubscribeError>)
    requires Holding(subs, flat, on, id) && name !in subs && |subs.Keys| < MAX_CHANNELS
    requires flat' == flat[name := ch] && Joined(on, on', name, ch.deleted, id, err)
    ensures Holding(subs, flat', on', id)
    ensures err.None? ==> Holding(subs[name := ch], flat', on', id)
  {
    forall n | n in subs ensures Held(subs[n], flat', on', id, n) { assert Held(subs[n], flat, on, id, n); }
    if err.None? {
      assert Held(ch, flat', on', id, name);
      assert subs[name := ch].Keys == subs.Keys + {name};
    }
  }

  /** Whatever handleSubscribe answers, subs and Subscribers stay in step and subs within its cap. */
  lemma AnswerKeeps(control: Gate, token: TokenCheck, reply: Reply, name: Name, id: nat, subs: Entries, subs': Entries,
                    flat: Entries, flat': Entries, on: map<Name, set<nat>>, on': map<Name, set<nat>>)
    requires Holding(subs, flat, on, id)
    requires Answered(Before(name, subs.Keys, control, token), reply, name, id, subs, subs', flat, flat', on, on')
    ensures Holding(subs', flat', on', id)
    ensures reply == Ack ==> name in subs' && name in on' && id in on'[name]
  {
    if Before(name, subs.Keys, control, token).None? {
      HoldingJoined(subs, flat, on, flat', on', name, flat'[name], id, Failed(reply));
    } else if reply == Ack {
      assert Held(subs[name], flat, on, id, name);
    }
  }

  // ----- the outcome in terms of the arguments -----------------------------------------------------

  /** 1 to 128 bytes and no control character. */
  ghost predicate Printable(text: string) {
    1 <= |text| <= 128 && forall i :: 0 <= i < |text| ==> 32 <= text[i] as int != 127
  }

  /** And not for the server's own use. */
  ghost predicate OpenName(text: string) {
    Printable(text) && (text == "_wirefan-stats" || text[0] != '_')
  }

  /** The token is good, or none is needed. */
  ghost predicate Proven(text: string, token: TokenCheck) {
    token.TokenOk? || (text[..Least(|text|, 8)] != "private-" && text[..Least(|text|, 9)] != "presence-")
  }

  function Least(a: nat, b: nat): nat { if a <= b then a else b }

  lemma NameMeans(name: Name)
    ensures OpenName(name.text) <==> ValidName(name) && !(Reserved(name) && name != STATS_CHANNEL)
    ensures ValidName(name) <==> Printable(name.text)
    ensures forall token: TokenCheck :: Proven(name.text, token) <==> token.TokenOk? || !RequiresAuth(name)
  {
    var text := name.text;
    assert Reserved(name) <==> text != "" && text[0] == '_';
    assert "_wirefan-stats"[0] == '_';
    forall token: TokenCheck ensures Proven(text, token) <==> token.TokenOk? || !RequiresAuth(name) {
      assert "private-" <= text <==> text[..Least(|text|, 8)] == "private-";
      assert "presence-" <= text <==> text[..Least(|text|, 9)] == "presence-";
    }
  }

  /** What the first refusal that applies is. */
  lemma BeforeMeans(name: Name, held: set<Name>, control: Gate, token: TokenCheck)
    ensures
      var early := Before(name, held, control, token);
      var open, proven := OpenName(name.text), Proven(name.text, token);
      var asks := open && control.Admitted? && name !in held;
      && (early == Some(BadChannel) <==> !Printable(name.text))
      && (early == Some(ReservedChannel) <==> Printable(name.text) && !open)
      && (early == Some(RateLimitedConn) <==> open && control.ConnEmpty?)
      && (early == Some(RateLimited) <==> open && control.KeyEmpty?)
      && (early == Some(Ack) <==> open && control.Admitted? && name in held)
      && (early == Some(AuthReplayed) <==> asks && !proven && token.TokenReplayed?)
      && (early == Some(AuthFailed) <==> asks && !proven && token.TokenBad?)
      && (early == Some(LimitChannels) <==> asks && proven && |held| >= 64)
      && (early.None? <==> asks && proven && |held| < 64)
  {
    NameMeans(name);
  }

  /** The last word is the channel's: deleted first, then full. */
  lemma JoinedMeans(reply: Reply, name: Name, id: nat, deleted: bool, on: map<Name, set<nat>>, on': map<Name, set<nat>>)
    requires reply in {Ack, LimitSubscribers, SubscribeFailed} && Joined(on, on', name, deleted, id, Failed(reply))
    ensures var was, full := if name in on then on[name] else {}, name in on && |on[name]| >= 10000;
      && (reply == SubscribeFailed <==> deleted)
      && (reply == LimitSubscribers <==> !deleted && full)
      && name in on' && on'[name] == (if reply == Ack then was + {id} else was)
  {
  }

  ghost predicate Tries(name: Name, held: set<Name>, control: Gate, token: TokenCheck) {
    OpenName(name.text) && control.Admitted? && name !in held && Proven(name.text, token) && |held| < 64
  }

  /** The connection gains the channel if and only if it did not hold it, the name is valid and open to
      clients, both buckets admitted the frame, the token is good where one is needed, fewer than 64
      channels are held, and the channel was live with room. */
  lemma SubscribeMeans(control: Gate, token: TokenCheck, reply: Reply, name: Name, id: nat, subs: Entries,
                       subs': Entries, flat: Entries, flat': Entries, on: map<Name, set<nat>>, on': map<Name, set<nat>>)
    requires Answered(Before(name, subs.Keys, control, token), reply, name, id, subs, subs', flat, flat', on, on')
    ensures
      var tries := Tries(name, subs.Keys, control, token);
      && (tries ==> name in flat')
      && (name in subs' <==>
            name in subs || (tries && !flat'[name].deleted && (name in on ==> |on[name]| < 10000)))
      && (reply == Ack <==> name in subs' && (OpenName(name.text) && control.Admitted?))
  {
    BeforeMeans(name, subs.Keys, control, token);
    if Tries(name, subs.Keys, control, token) { JoinedMeans(reply, name, id, flat'[name].deleted, on, on'); }
  }

  class Conn {
    const id: nat
    var subs: Entries
    var closed: bool

    constructor (id: nat)
      ensures this.id == id && subs == map[] && !closed
    {
      this.id := id;
      subs := map[];
      closed := false;
    }

    /** GetOrCreate, as the subscribers see it. */
    method Enter(name: Name, reg: ShardedReg) returns (ch: Channel)
      requires reg.Valid()
      modifies reg`shards, reg`flat
      ensures reg.Valid() && name in reg.flat && reg.flat[name] == ch && ch.name == name
      ensures Entered(old(reg.flat), reg.flat, name) && (name !in old(reg.flat) ==> fresh(ch) && !ch.deleted)
      ensures var was := old(SubsOf(reg.flat)); SubsOf(reg.flat) == was[name := if name in was then was[name] else {}]
    {
      ch := reg.GetOrCreate(name);
      assert reg.At(name);
    }

    /** hub.Subscribe on a channel of the registry. */
    method JoinOn(name: Name, ch: Channel, reg: ShardedReg) returns (err: Option<SubscribeError>)
      requires reg.Valid() && name in reg.flat && reg.flat[name] == ch
      modifies ch`subscribers
      ensures reg.Valid() && Joined(old(SubsOf(reg.flat)), SubsOf(reg.flat), name, ch.deleted, id, err)
    {
      ghost var before := SubsOf(reg.flat);
      forall n | n in reg.flat ensures reg.flat[n].name == n { assert reg.At(n); }
      err := ch.Subscribe(id, MAX_SUBS);
      forall n | n in reg.flat && n != name ensures reg.flat[n].subscribers == before[n] {}
    }

    /** One try: GetOrCreate, then hub.Subscribe on what it returned. */
    method Try(name: Name, reg: ShardedReg) returns (ch: Channel, err: Option<SubscribeError>)
      requires reg.Valid()
      modifies reg`shards, reg`flat, reg.flat.Values`subscribers
      ensures reg.Valid() && name in reg.flat && reg.flat[name] == ch && ch.name == name
      ensures Entered(old(reg.flat), reg.flat, name) && (name !in old(reg.flat) ==> fresh(ch) && !ch.deleted)
      ensures Joined(old(SubsOf(reg.flat)), SubsOf(reg.flat), name, ch.deleted, id, err)
    {
      ch := Enter(name, reg);
      err := JoinOn(name, ch, reg);
    }

    /** The subscribe loop: at most three tries, the next one only after ErrChannelDeleted. */
    method Acquire(name: Name, reg: ShardedReg) returns (ch: Channel, err: Option<SubscribeError>)
      requires reg.Valid()
      modifies reg`shards, reg`flat, reg.flat.Values`subscribers
      ensures reg.Valid() && name in reg.flat && reg.flat[name] == ch && ch.name == name
      ensures Entered(old(reg.flat), reg.flat, name) && (name !in old(reg.flat) ==> fresh(ch) && !ch.deleted)
      ensures Joined(old(SubsOf(reg.flat)), SubsOf(reg.flat), name, ch.deleted, id, err)
    {
      ch, err := Try(name, reg);
      var i := 1;
      while i < MAX_RETRIES && err == Some(ChannelDeleted)
        invariant reg.Valid() && name in reg.flat && reg.flat[name] == ch && ch.name == name
        invariant Entered(old(reg.flat), reg.flat, name) && (name !in old(reg.flat) ==> fresh(ch) && !ch.deleted)
        invariant Joined(old(SubsOf(reg.flat)), SubsOf(reg.flat), name, ch.deleted, id, err)
      {
        ch, err := Try(name, reg);
        i := i + 1;
      }
    }

    /** handle's check of the name, and handleSubscribe. A refusal or an ack of a held channel changes
        nothing; otherwise the channel gains this connection and subs gains the channel, or neither does.
        That this keeps the two in step is HoldingJoined; what it comes to is SubscribeMeans. */
    method HandleSubscribe(name: Name, control: Gate, token: TokenCheck, reg: ShardedReg) returns (reply: Reply)
      requires reg.Valid()
      modifies this`subs, reg`shards, reg`flat, reg.flat.Values`subscribers
      ensures reg.Valid()
      ensures Answered(Before(name, old(subs).Keys, control, token), reply, name, id,
                       old(subs), subs, old(reg.flat), reg.flat, old(SubsOf(reg.flat)), SubsOf(reg.flat))
    {
      ghost var flat, on := reg.flat, SubsOf(reg.flat);
      var early := Before(name, subs.Keys, control, token);
      if early.Some? { return early.value; }
      var ch, err := Acquire(name, reg);
      reply := if err.None? then Ack else if err.value.TooManySubs? then LimitSubscribers else SubscribeFailed;
      ghost var now := SubsOf(reg.flat);
      assert Joined(on, now, name, ch.deleted, id, Failed(reply));
      subs := if err.None? then subs[name := ch] else subs;
      assert SubsOf(reg.flat) == now;
    }

    /** handle's check of the name, and handleUnsubscribe: acked whether or not the channel was held, and
        then held no longer. */
    method HandleUnsubscribe(name: Name, control: Gate) returns (reply: Reply)
      modifies this`subs, (if name in subs then {subs[name]} else {})`subscribers
      ensures reply == BadChannel <==> !Printable(name.text)
      ensures reply == RateLimitedConn <==> Printable(name.text) && control.ConnEmpty?
      ensures reply == RateLimited <==> Printable(name.text) && control.KeyEmpty?
      ensures reply == Ack <==> Printable(name.text) && control.Admitted?
      ensures subs == if reply == Ack then old(subs) - {name} else old(subs)
      ensures name in old(subs) ==>
        old(subs)[name].subscribers == old(subs[name].subscribers) - if reply == Ack then {id} else {}
    {
      NameMeans(name);
      if !ValidName(name) { return BadChannel; }
      if Throttled(control).Some? { return Throttled(control).value; }
      if name !in subs { return Ack; }
      var ch := subs[name];
      subs := subs - {name};
      ch.Unsubscribe(id);
      return Ack;
    }

    /** handle's check of the name, and handlePublish up to the broadcast: who may publish, and which
        refusal anyone else gets. */
    method HandlePublish(name: Name, publish: Gate) returns (refusal: Option<Reply>)
      ensures refusal == Some(BadChannel) <==> !Printable(name.text)
      ensures refusal == Some(ReservedChannel) <==> Printable(name.text) && name.text[0] == '_'
      ensures refusal == Some(NotSubscribed) <==> Printable(name.text) && name.text[0] != '_' && name !in subs
      ensures var may := Printable(name.text) && name.text[0] != '_' && name in subs;
        && (refusal == Some(RateLimitedConn) <==> may && publish.ConnEmpty?)
        && (refusal == Some(RateLimited) <==> may && publish.KeyEmpty?)
        && (refusal == None <==> may && publish.Admitted?)
    {
      NameMeans(name);
      if !ValidName(name) { return Some(BadChannel); }
      if Reserved(name) { return Some(ReservedChannel); }
      if name !in subs { return Some(NotSubscribed); }
      return Throttled(publish);
    }

    /** The end of Run: closed first, then every held channel forgets this connection. */
    method Cleanup()
      modifies this`subs, this`closed, subs.Values`subscribers
      ensures closed && subs == map[]
      ensures forall ch :: ch in old(subs).Values ==> ch.subscribers == old(ch.subscribers) - {id}
    {
      closed := true;
      var rest := subs.Values;
      subs := map[];
      ghost var left: set<Channel> := {};
      while rest != {}
        invariant closed && subs == map[] && left !! rest && left + rest == old(subs).Values
        invariant forall ch :: ch in left ==> ch.subscribers == old(ch.subscribers) - {id}
        invariant forall ch :: ch in rest ==> ch.subscribers == old(ch.subscribers)
        decreases rest
      {
        var ch :| ch in rest;
        ch.Unsubscribe(id);
        rest, left := rest - {ch}, left + {ch};
      }
    }
  }
}
