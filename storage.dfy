/**
 * The bot's data store: a registry of subscribed channels, a flag saying
 * whether the launch notification for the current schedule was sent, and the
 * schedule embed sent last. Every call that changes one of them rewrites the
 * whole triple to the store's file.
 */
module Storage {

  datatype Option<+T> = None | Some(value: T)

  /** Channel ids are unbounded integers. */
  type ChannelId = int

  /** How one channel wants to be notified. `N` is the notification-type
      enumeration, which the store only stores and returns. */
  datatype SubscriptionOptions<N> = SubscriptionOptions(notificationType: N, launchMentions: string)

  type Registry<N> = map<ChannelId, SubscriptionOptions<N>>

  /** The dictionary of the schedule embed sent last; its values are opaque. */
  type Snapshot<V> = map<string, V>

  /** The three persisted fields, as they are held in memory and in the file. */
  datatype Image<N, V> = Image(subs: Registry<N>, sent: bool, prevEmbed: Snapshot<V>)

  /** The state of a store whose file does not exist. */
  function Fresh<N, V>(): Image<N, V> {
    Image(map[], false, map[])
  }

  /** The state a store starts in, given what is at its path, if anything. */
  function Load<N, V>(file: Option<Image<N, V>>): Image<N, V> {
    match file
    case None => Fresh()
    case Some(img) => img
  }

  // ---------------------------------------------------------------------------
  // The calls that may change the store, as values, and their effect.
  // ---------------------------------------------------------------------------

  datatype Mutation<N, V> =
    | Subscribe(id: ChannelId, notificationType: N, launchMentions: string)
    | Unsubscribe(id: ChannelId)
    | SetTaskVars(sent: bool, embed: Snapshot<V>)
    | Persist

  /** The state after one call. */
  function Step<N, V>(img: Image<N, V>, m: Mutation<N, V>): Image<N, V> {
    match m
    case Subscribe(id, t, mentions) =>
      if id in img.subs then img else img.(subs := img.subs[id := SubscriptionOptions(t, mentions)])
    case Unsubscribe(id) =>
      if id in img.subs then img.(subs := img.subs - {id}) else img
    case SetTaskVars(b, d) => img.(sent := b, prevEmbed := d)
    case Persist => img
  }

  /** Whether the call writes the file. For the two registry calls this is also
      the boolean the call returns. */
  predicate Saves<N, V>(img: Image<N, V>, m: Mutation<N, V>) {
    match m
    case Subscribe(id, _, _) => id !in img.subs
    case Unsubscribe(id) => id in img.subs
    case SetTaskVars(_, _) => true
    case Persist => true
  }

  /** The state after the calls `ms`, in order, starting from `img`. */
  function Run<N, V>(img: Image<N, V>, ms: seq<Mutation<N, V>>): Image<N, V>
    decreases |ms|
  {
    if ms == [] then img else Step(Run(img, ms[..|ms| - 1]), ms[|ms| - 1])
  }

  /** What the file holds after the calls `ms`, starting from `img` with `file`. */
  function FileAfter<N, V>(file: Option<Image<N, V>>, img: Image<N, V>, ms: seq<Mutation<N, V>>): Option<Image<N, V>>
    decreases |ms|
  {
    if ms == [] then file
    else
      var before := Run(img, ms[..|ms| - 1]);
      if Saves(before, ms[|ms| - 1]) then Some(Step(before, ms[|ms| - 1]))
      else FileAfter(file, img, ms[..|ms| - 1])
  }

  predicate Adds<N, V>(m: Mutation<N, V>, id: ChannelId) {
    m.Subscribe? && m.id == id
  }

  predicate Removes<N, V>(m: Mutation<N, V>, id: ChannelId) {
    m.Unsubscribe? && m.id == id
  }

  /** No call from index `k` of `ms` on removes `id`. */
  ghost predicate NotRemovedSince<N, V>(ms: seq<Mutation<N, V>>, id: ChannelId, k: nat) {
    forall j :: k <= j < |ms| ==> !Removes(ms[j], id)
  }

  /** Reference definition of the registry's keys after `ms`, independent of
      Step: `id` was a key from the start and was never removed, or some call
      added it and none removed it afterwards. */
  ghost predicate AddedAndNotRemoved<N, V>(keys: set<ChannelId>, ms: seq<Mutation<N, V>>, id: ChannelId) {
    || (id in keys && NotRemovedSince(ms, id, 0))
    || exists i :: 0 <= i < |ms| && Adds(ms[i], id) && NotRemovedSince(ms, id, i + 1)
  }

  /** The ids that some call of `ms` adds. */
  function AddedIds<N, V>(ms: seq<Mutation<N, V>>): set<ChannelId> {
    set i | 0 <= i < |ms| && ms[i].Subscribe? :: ms[i].id
  }

  /** The ids added and not yet removed. */
  ghost function LiveIds<N, V>(keys: set<ChannelId>, ms: seq<Mutation<N, V>>): set<ChannelId> {
    set id | id in keys + AddedIds(ms) && AddedAndNotRemoved(keys, ms, id)
  }

  // ---------------------------------------------------------------------------
  // Properties of single calls.
  // ---------------------------------------------------------------------------

  /** Adding an id that is already present is a no-op that does not save, and
      keeps the options of the first add. */
  lemma IdempotentSubscribe<N, V>(img: Image<N, V>, id: ChannelId, t: N, mentions: string, t': N, mentions': string)
    ensures var once := Step(img, Subscribe(id, t, mentions));
      && !Saves(once, Subscribe(id, t', mentions'))
      && Step(once, Subscribe(id, t', mentions')) == once
      && once.subs[id] == (if id in img.subs then img.subs[id] else SubscriptionOptions(t, mentions))
  {
  }

  /** Every call that changes the state saves it; an add or a remove that
      changes nothing does not save. */
  lemma SavesOnChange<N, V>(img: Image<N, V>, m: Mutation<N, V>)
    ensures Step(img, m) != img ==> Saves(img, m)
    ensures (m.Subscribe? || m.Unsubscribe?) ==> (Saves(img, m) <==> Step(img, m) != img)
  {
  }

  // ---------------------------------------------------------------------------
  // Properties of sequences of calls.
  // ---------------------------------------------------------------------------

  /** A call that neither adds nor removes `id` does not change whether `id`
      counts as added and not removed. */
  lemma LiveUnaffected<N, V>(keys: set<ChannelId>, ms: seq<Mutation<N, V>>, m: Mutation<N, V>, id: ChannelId)
    requires !Adds(m, id) && !Removes(m, id)
    ensures AddedAndNotRemoved(keys, ms + [m], id) <==> AddedAndNotRemoved(keys, ms, id)
  {
    var ms' := ms + [m];
    if AddedAndNotRemoved(keys, ms', id) {
      if !(id in keys && NotRemovedSince(ms', id, 0)) {
        var i :| 0 <= i < |ms'| && Adds(ms'[i], id) && NotRemovedSince(ms', id, i + 1);
        assert i < |ms| && ms[i] == ms'[i];
        assert NotRemovedSince(ms, id, i + 1) by {
          forall j | i + 1 <= j < |ms| ensures !Removes(ms[j], id) {
            assert ms[j] == ms'[j];
          }
        }
      } else {
        forall j | 0 <= j < |ms| ensures !Removes(ms[j], id) {
          assert ms[j] == ms'[j];
        }
      }
    }
    if AddedAndNotRemoved(keys, ms, id) {
      if id in keys && NotRemovedSince(ms, id, 0) {
        forall j | 0 <= j < |ms'| ensures !Removes(ms'[j], id) {
          if j < |ms| { assert ms'[j] == ms[j]; }
        }
      } else {
        var i :| 0 <= i < |ms| && Adds(ms[i], id) && NotRemovedSince(ms, id, i + 1);
        assert Adds(ms'[i], id);
        forall j | i + 1 <= j < |ms'| ensures !Removes(ms'[j], id) {
          if j < |ms| { assert ms'[j] == ms[j]; }
        }
      }
    }
  }

  /** After any calls, an id is subscribed exactly when it was added (or there
      from the start) and not removed since. */
  lemma {:induction false} RunKeysAreLive<N, V>(img: Image<N, V>, ms: seq<Mutation<N, V>>, id: ChannelId)
    ensures id in Run(img, ms).subs <==> AddedAndNotRemoved(img.subs.Keys, ms, id)
    decreases |ms|
  {
    if ms != [] {
      var init, m := ms[..|ms| - 1], ms[|ms| - 1];
      assert ms == init + [m];
      RunKeysAreLive(img, init, id);
      if Adds(m, id) {
        assert Adds(ms[|ms| - 1], id) && NotRemovedSince(ms, id, |ms|);
      } else if Removes(m, id) {
        assert !NotRemovedSince(ms, id, 0);
        forall i | 0 <= i < |ms| && Adds(ms[i], id) ensures !NotRemovedSince(ms, id, i + 1) {
          assert i + 1 <= |ms| - 1 && Removes(ms[|ms| - 1], id);
        }
      } else {
        LiveUnaffected(img.subs.Keys, init, m, id);
      }
    }
  }

  /** The number of subscribed channels after any calls is the number of ids
      added and not yet removed. */
  lemma {:induction false} CountIsLive<N, V>(img: Image<N, V>, ms: seq<Mutation<N, V>>)
    ensures |Run(img, ms).subs| == |LiveIds(img.subs.Keys, ms)|
  {
    var keys := Run(img, ms).subs.Keys;
    forall id ensures id in keys <==> id in LiveIds(img.subs.Keys, ms) {
      RunKeysAreLive(img, ms, id);
      if AddedAndNotRemoved(img.subs.Keys, ms, id) && id !in img.subs.Keys {
        var i :| 0 <= i < |ms| && Adds(ms[i], id) && NotRemovedSince(ms, id, i + 1);
        assert id in AddedIds(ms);
      }
    }
    assert keys == LiveIds(img.subs.Keys, ms);
  }

  /** Starting from a fresh store, a remove returns true exactly when the id
      was added and not removed since. */
  lemma {:induction false} RemoveSucceedsIffLive<N, V>(ms: seq<Mutation<N, V>>, id: ChannelId)
    ensures Saves(Run(Fresh(), ms), Unsubscribe(id)) <==> AddedAndNotRemoved({}, ms, id)
  {
    RunKeysAreLive(Fresh<N, V>(), ms, id);
  }

  /** The options of a subscribed channel stay as they are until it is removed:
      a second add never overwrites them. */
  lemma {:induction false} OptionsKeptUntilRemoved<N, V>(img: Image<N, V>, ms: seq<Mutation<N, V>>, id: ChannelId)
    requires id in img.subs
    requires NotRemovedSince(ms, id, 0)
    ensures id in Run(img, ms).subs && Run(img, ms).subs[id] == img.subs[id]
    decreases |ms|
  {
    if ms != [] {
      var init := ms[..|ms| - 1];
      assert NotRemovedSince(init, id, 0) by {
        forall j | 0 <= j < |init| ensures !Removes(init[j], id) {
          assert init[j] == ms[j];
        }
      }
      OptionsKeptUntilRemoved(img, init, id);
      assert !Removes(ms[|ms| - 1], id);
    }
  }

  /** Reopening the file after any calls gives back the state those calls
      left in memory. */
  lemma {:induction false} ReopenAfterRun<N, V>(file: Option<Image<N, V>>, ms: seq<Mutation<N, V>>)
    ensures Load(FileAfter(file, Load(file), ms)) == Run(Load(file), ms)
    decreases |ms|
  {
    if ms != [] {
      var init, m := ms[..|ms| - 1], ms[|ms| - 1];
      ReopenAfterRun(file, init);
      SavesOnChange(Run(Load(file), init), m);
    }
  }

  // ---------------------------------------------------------------------------
  // The store itself.
  // ---------------------------------------------------------------------------

  class DataStore<N, V> {
    /** Subscribed channels and their options. */
    var subs: Registry<N>
    /** Whether the launch notification for the current schedule was sent. */
    var sent: bool
    /** The schedule embed sent last, kept for comparison. */
    var prevEmbed: Snapshot<V>
    /** What the file at the store's path holds; None while there is no file. */
    var file: Option<Image<N, V>>
    /** How many times the store has written its file. */
    ghost var saves: nat

    function State(): Image<N, V>
      reads this
    {
      Image(subs, sent, prevEmbed)
    }

    /** Memory and file agree: reopening the file gives the current state. */
    ghost predicate Valid()
      reads this
    {
      Load(file) == State()
    }

    /** Opens the store on whatever its path holds: the defaults when no file
        exists, otherwise the three fields read from it. */
    constructor (file: Option<Image<N, V>>)
      ensures State() == Load(file)
      ensures file.None? ==> subs == map[] && !sent && prevEmbed == map[]
      ensures this.file == file && saves == 0
      ensures Valid()
    {
      subs := map[];
      sent := false;
      prevEmbed := map[];
      this.file := file;
      saves := 0;
      if file.Some? {
        subs, sent, prevEmbed := file.value.subs, file.value.sent, file.value.prevEmbed;
      }
    }

    /** Writes all three fields to the file. */
    method Save()
      modifies this`file, this`saves
      ensures file == Some(State()) && saves == old(saves) + 1
      ensures Valid()
    {
      file := Some(State());
      saves := saves + 1;
    }

    method GetNotificationTaskVars() returns (embedSent: bool, embed: Snapshot<V>)
      ensures embedSent == sent && embed == prevEmbed
    {
      embedSent, embed := sent, prevEmbed;
    }

    method SetNotificationTaskVars(embedSent: bool, embed: Snapshot<V>)
      modifies this
      ensures sent == embedSent && prevEmbed == embed && subs == old(subs)
      ensures State() == Step(old(State()), SetTaskVars(embedSent, embed))
      ensures file == Some(State()) && saves == old(saves) + 1
      ensures Valid()
    {
      sent := embedSent;
      prevEmbed := embed;
      Save();
    }

    /** Subscribes a channel unless it is subscribed already; says whether it did. */
    method AddSubbedChannel(id: ChannelId, t: N, mentions: string) returns (inserted: bool)
      requires Valid()
      modifies this`subs, this`file, this`saves
      ensures inserted <==> id !in old(subs)
      ensures subs == if inserted then old(subs)[id := SubscriptionOptions(t, mentions)] else old(subs)
      ensures State() == Step(old(State()), Subscribe(id, t, mentions))
      ensures inserted == Saves(old(State()), Subscribe(id, t, mentions))
      ensures file == (if inserted then Some(State()) else old(file))
      ensures saves == old(saves) + (if inserted then 1 else 0)
      ensures Valid()
    {
      if id !in subs {
        subs := subs[id := SubscriptionOptions(t, mentions)];
        Save();
        return true;
      }
      return false;
    }

    method GetSubbedChannels() returns (channels: Registry<N>)
      ensures channels == subs
    {
      channels := subs;
    }

    /** Unsubscribes a channel if it is subscribed; says whether it did. */
    method RemoveSubbedChannel(id: ChannelId) returns (removed: bool)
      requires Valid()
      modifies this`subs, this`file, this`saves
      ensures removed <==> id in old(subs)
      ensures subs == if removed then old(subs) - {id} else old(subs)
      ensures State() == Step(old(State()), Unsubscribe(id))
      ensures removed == Saves(old(State()), Unsubscribe(id))
      ensures file == (if removed then Some(State()) else old(file))
      ensures saves == old(saves) + (if removed then 1 else 0)
      ensures Valid()
    {
      if id in subs {
        subs := subs - {id};
        Save();
        return true;
      }
      return false;
    }

    method SubbedChannelsCount() returns (count: nat)
      ensures count == |subs|
    {
      count := |subs|;
    }
  }

  // ---------------------------------------------------------------------------
  // Clients.
  // ---------------------------------------------------------------------------

  /** Discarding a store and opening a new one on its file restores its state. */
  method Reopen<N, V>(store: DataStore<N, V>) returns (again: DataStore<N, V>)
    requires store.Valid()
    ensures again.State() == store.State() && again.Valid()
  {
    again := new DataStore(store.file);
  }

  /** A session on a store without a file: add a channel twice, read it back,
      remove it twice, then record a sent notification. */
  method ExampleSession<N, V>(a: N, b: N, embed: Snapshot<V>)
    returns (first: bool, second: bool, kept: SubscriptionOptions<N>, gone: bool, again: bool,
             count: nat, embedSent: bool, embedBack: Snapshot<V>)
    ensures first && !second && kept == SubscriptionOptions(a, "@here")
    ensures gone && !again && count == 0
    ensures embedSent && embedBack == embed
  {
    var store := new DataStore<N, V>(None);
    first := store.AddSubbedChannel(100, a, "@here");
    second := store.AddSubbedChannel(100, b, "@all");
    var channels := store.GetSubbedChannels();
    kept := channels[100];
    gone := store.RemoveSubbedChannel(100);
    again := store.RemoveSubbedChannel(100);
    count := store.SubbedChannelsCount();
    store.SetNotificationTaskVars(true, embed);
    embedSent, embedBack := store.GetNotificationTaskVars();
  }
}
