/** The snipe cache: per channel, the most recent messages (newest first), and per
    channel the last edit or deletion seen, shown by `/snipe` for 30 seconds. */
module Snipe {
  import opened Common

  /** `recv_msg` drops the oldest message when a channel holds more than this many. */
  const KeepLimit: nat := 50

  /** The most messages a channel's deque ever holds. */
  const MaxCached: nat := KeepLimit + 1

  /** Times are `DateTime<Utc>` instants in nanoseconds; `Duration::seconds(30)`. */
  const FreshWindow: int := 30 * 1_000_000_000

  /** The author line of the snipe embed: the `name#discriminator` tag and avatar URL. */
  datatype Author = Author(tag: string, avatar: string)

  /** The cached part of a Discord message. */
  datatype Message = Message(id: MessageId, channel: ChannelId, author: Author, content: string)

  datatype SnipeContent = Delete(content: string) | Edit(before: string, after: string)

  datatype SnipeData = SnipeData(author: Author, content: SnipeContent, timestamp: int)

  /** `SnipeEntry`: the last recorded edit or deletion of a channel, if any. */
  datatype SnipeEntry = SnipeEntry(data: Option<SnipeData>)

  /** `SnipeEntry::set`: any earlier data is replaced. */
  function SetEntry(e: SnipeEntry, d: SnipeData): (e': SnipeEntry)
    ensures e'.data == Some(d)
  {
    SnipeEntry(Some(d))
  }

  /** `SnipeEntry::get` at time `now`: the data, only while at most 30 seconds old. */
  function GetEntry(e: SnipeEntry, now: int): (r: Option<SnipeData>)
    ensures r.Some? <==> e.data.Some? && now - e.data.value.timestamp <= FreshWindow
    ensures r.Some? ==> r == e.data
  {
    match e.data
    case Some(d) => if now - d.timestamp <= FreshWindow then e.data else None
    case None => None
  }

  /** What was just set is read back for 30 seconds after its timestamp, whatever the
      entry held before. */
  lemma GetAfterSet(e: SnipeEntry, d: SnipeData, now: int)
    ensures GetEntry(SetEntry(e, d), now) == if now - d.timestamp <= FreshWindow then Some(d) else None
  {
  }

  /** `SnipeState`: the message deques (front is newest) and the entries, per channel. */
  datatype SnipeState = SnipeState(cache: map<ChannelId, seq<Message>>, entries: map<ChannelId, SnipeEntry>)

  const EmptyState: SnipeState := SnipeState(map[], map[])

  /** `cache.entry(c).or_default()`, read only. */
  function Cached(st: SnipeState, c: ChannelId): seq<Message> {
    if c in st.cache then st.cache[c] else []
  }

  /** Every message is cached under its own channel. */
  ghost predicate ChannelConsistent(st: SnipeState) {
    forall c, i :: c in st.cache && 0 <= i < |st.cache[c]| ==> st.cache[c][i].channel == c
  }

  /** No channel's deque holds more than `MaxCached` messages. */
  ghost predicate Bounded(st: SnipeState) {
    forall c :: c in st.cache ==> |st.cache[c]| <= MaxCached
  }

  /** `iter().find(|m| m.id == id)`: the position of the first message with `id`. */
  function Find(q: seq<Message>, id: MessageId): (r: Option<nat>)
    ensures r.Some? ==> r.value < |q| && q[r.value].id == id
    ensures r.Some? ==> forall j :: 0 <= j < r.value ==> q[j].id != id
    ensures r.None? ==> forall j :: 0 <= j < |q| ==> q[j].id != id
  {
    if |q| == 0 then None
    else if q[0].id == id then Some(0)
    else
      match Find(q[1..], id)
      case None => None
      case Some(i) => Some(i + 1)
  }

  /** `recv_msg`: drop the back of the channel's deque if it holds more than 50
      messages, then push the new message at the front. */
  function RecvMsg(st: SnipeState, msg: Message): (st': SnipeState)
    ensures st'.entries == st.entries
    ensures st'.cache.Keys == st.cache.Keys + {msg.channel}
    ensures forall c :: c in st.cache && c != msg.channel ==> st'.cache[c] == st.cache[c]
    ensures var (q, q') := (Cached(st, msg.channel), st'.cache[msg.channel]);
            && |q'| == (if |q| > KeepLimit then |q| else |q| + 1)
            && q'[0] == msg
            && q'[1..] == q[..|q'| - 1]
    ensures ChannelConsistent(st) ==> ChannelConsistent(st')
    ensures Bounded(st) ==> Bounded(st')
  {
    var q := Cached(st, msg.channel);
    var kept := if |q| > KeepLimit then q[..|q| - 1] else q;
    st.(cache := st.cache[msg.channel := [msg] + kept])
  }

  /** `recv_msg_update`: when the event carries new content and the message is cached
      in that channel, record `Edit(old, new)` for the channel and update the cached
      content; otherwise nothing changes. */
  function RecvMsgUpdate(st: SnipeState, c: ChannelId, id: MessageId, content: Option<string>, now: int): (st': SnipeState)
    ensures content.None? || Find(Cached(st, c), id).None? ==> st' == st
    ensures content.Some? && Find(Cached(st, c), id).Some? ==>
              && var i := Find(Cached(st, c), id).value;
              && var prev := st.cache[c][i];
              && st'.entries.Keys == st.entries.Keys + {c}
              && st'.entries[c].data == Some(SnipeData(prev.author, Edit(prev.content, content.value), now))
              && st'.cache.Keys == st.cache.Keys
              && |st'.cache[c]| == |st.cache[c]|
              && st'.cache[c][i] == prev.(content := content.value)
              && (forall j :: 0 <= j < |st.cache[c]| && j != i ==> st'.cache[c][j] == st.cache[c][j])
              && (forall d :: d in st.cache && d != c ==> st'.cache[d] == st.cache[d])
              && (forall d :: d in st.entries && d != c ==> d in st'.entries && st'.entries[d] == st.entries[d])
    ensures ChannelConsistent(st) ==> ChannelConsistent(st')
    ensures Bounded(st) ==> Bounded(st')
  {
    if content.None? then st
    else
      match Find(Cached(st, c), id)
      case None => st
      case Some(i) =>
        var prev := st.cache[c][i];
        var entry := if c in st.entries then st.entries[c] else SnipeEntry(None);
        var data := SnipeData(prev.author, Edit(prev.content, content.value), now);
        SnipeState(st.cache[c := st.cache[c][i := prev.(content := content.value)]], st.entries[c := SetEntry(entry, data)])
  }

  /** `recv_msg_delete`: when the message is cached in that channel, record
      `Delete(content)` under the cached message's channel. The cache is never changed. */
  function RecvMsgDelete(st: SnipeState, c: ChannelId, id: MessageId, now: int): (st': SnipeState)
    ensures st'.cache == st.cache
    ensures Find(Cached(st, c), id).None? ==> st' == st
    ensures Find(Cached(st, c), id).Some? ==>
              && var m := st.cache[c][Find(Cached(st, c), id).value];
              && m.id == id
              && st'.entries.Keys == st.entries.Keys + {m.channel}
              && st'.entries[m.channel].data == Some(SnipeData(m.author, Delete(m.content), now))
              && (forall d :: d in st.entries && d != m.channel ==> d in st'.entries && st'.entries[d] == st.entries[d])
    ensures ChannelConsistent(st) && Find(Cached(st, c), id).Some? ==>
              c in st'.entries && st'.entries[c].data.value.content.Delete?
  {
    match Find(Cached(st, c), id)
    case None => st
    case Some(i) =>
      var m := st.cache[c][i];
      var entry := if m.channel in st.entries then st.entries[m.channel] else SnipeEntry(None);
      st.(entries := st.entries[m.channel := SetEntry(entry, SnipeData(m.author, Delete(m.content), now))])
  }

  /** What `/snipe` shows: the channel's fresh entry, or "No message to snipe!". */
  datatype SnipeReply = Shown(data: SnipeData) | NoMessageToSnipe

  /** `snipe::run` in channel `c` at time `now`. */
  function SnipeCommand(st: SnipeState, c: ChannelId, now: int): (r: SnipeReply)
    ensures r == NoMessageToSnipe <==>
              c !in st.entries || st.entries[c].data.None? || now - st.entries[c].data.value.timestamp > FreshWindow
    ensures r.Shown? ==> c in st.entries && st.entries[c].data == Some(r.data)
  {
    if c in st.entries then
      match GetEntry(st.entries[c], now)
      case Some(d) => Shown(d)
      case None => NoMessageToSnipe
    else NoMessageToSnipe
  }

  /** Once an entry is too old to show, it stays too old. */
  lemma StaleStaysStale(e: SnipeEntry, now: int, later: int)
    requires GetEntry(e, now).None? && now <= later
    ensures GetEntry(e, later).None?
  {
  }

  /** A message received and then deleted is what `/snipe` shows in its channel for
      the next 30 seconds, and not after. */
  lemma DeletedMessageIsSniped(st: SnipeState, m: Message, t: int, now: int)
    requires t <= now
    ensures var st' := RecvMsgDelete(RecvMsg(st, m), m.channel, m.id, t);
            SnipeCommand(st', m.channel, now) ==
              if now - t <= FreshWindow then Shown(SnipeData(m.author, Delete(m.content), t)) else NoMessageToSnipe
  {
    var st1 := RecvMsg(st, m);
    assert Find(Cached(st1, m.channel), m.id) == Some(0);
  }

  /** A message received, edited and then deleted: `/snipe` first shows the edit, then
      the deletion of the edited text. */
  lemma EditedThenDeletedMessageIsSniped(st: SnipeState, m: Message, edited: string, t: int, t': int)
    ensures var st1 := RecvMsgUpdate(RecvMsg(st, m), m.channel, m.id, Some(edited), t);
            && SnipeCommand(st1, m.channel, t) == Shown(SnipeData(m.author, Edit(m.content, edited), t))
            && SnipeCommand(RecvMsgDelete(st1, m.channel, m.id, t'), m.channel, t') ==
                 Shown(SnipeData(m.author, Delete(edited), t'))
  {
    var st0 := RecvMsg(st, m);
    assert Find(Cached(st0, m.channel), m.id) == Some(0);
    var st1 := RecvMsgUpdate(st0, m.channel, m.id, Some(edited), t);
    assert Find(Cached(st1, m.channel), m.id) == Some(0);
  }

  /** The events that feed the cache. */
  datatype CacheEvent =
    | Received(msg: Message)
    | Updated(channel: ChannelId, id: MessageId, content: Option<string>, at: int)
    | Deleted(channel: ChannelId, id: MessageId, at: int)

  function Apply(st: SnipeState, e: CacheEvent): SnipeState {
    match e
    case Received(m) => RecvMsg(st, m)
    case Updated(c, id, content, at) => RecvMsgUpdate(st, c, id, content, at)
    case Deleted(c, id, at) => RecvMsgDelete(st, c, id, at)
  }

  function ApplyAll(st: SnipeState, evs: seq<CacheEvent>): SnipeState
    decreases |evs|
  {
    if |evs| == 0 then st else ApplyAll(Apply(st, evs[0]), evs[1..])
  }

  /** Starting from the empty cache, no channel ever holds more than 51 messages and
      every message sits under its own channel, whatever events arrive. */
  lemma {:induction false} CacheStaysBounded(st: SnipeState, evs: seq<CacheEvent>)
    requires Bounded(st) && ChannelConsistent(st)
    ensures Bounded(ApplyAll(st, evs)) && ChannelConsistent(ApplyAll(st, evs))
    decreases |evs|
  {
    if |evs| > 0 {
      CacheStaysBounded(Apply(st, evs[0]), evs[1..]);
    }
  }

  lemma FromEmptyCache(evs: seq<CacheEvent>)
    ensures Bounded(ApplyAll(EmptyState, evs)) && ChannelConsistent(ApplyAll(EmptyState, evs))
  {
    CacheStaysBounded(EmptyState, evs);
  }
}
