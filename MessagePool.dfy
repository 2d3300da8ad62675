/** The ordered store of all messages: visibility and sender filters, id and time-range
    queries, and snapshots keyed by a time index with revert and prune. */
module Pool {
  import opened Wrappers
  import opened PyText
  import opened Messages

  /** The argument of the getters that selects every message (lower case). */
  const AllSentinel := "all"
  /** The receiver that marks a message as broadcast (upper case). */
  const Broadcast := "ALL"

  /** The messages of `s` for which `keep` holds, in their original order. */
  function Keep(s: seq<Message>, keep: Message -> bool): (r: seq<Message>)
    ensures |r| <= |s|
    ensures forall m :: m in r <==> m in s && keep(m)
  {
    if s == [] then [] else (if keep(s[0]) then [s[0]] else []) + Keep(s[1..], keep)
  }

  /** Each message occurs in the filtered list as often as in the input when it is kept,
      and not at all otherwise. */
  lemma {:induction false} KeepCounts(s: seq<Message>, keep: Message -> bool, m: Message)
    ensures multiset(Keep(s, keep))[m] == if keep(m) then multiset(s)[m] else 0
  {
    if s != [] {
      assert s == [s[0]] + s[1..];
      KeepCounts(s[1..], keep, m);
    }
  }

  /** Filtering a concatenation filters each part: the kept messages keep their relative order. */
  lemma {:induction false} KeepConcat(a: seq<Message>, b: seq<Message>, keep: Message -> bool)
    ensures Keep(a + b, keep) == Keep(a, keep) + Keep(b, keep)
  {
    if a != [] {
      var head := if keep(a[0]) then [a[0]] else [];
      assert (a + b)[0] == a[0] && (a + b)[1..] == a[1..] + b;
      assert Keep(a + b, keep) == head + Keep(a[1..] + b, keep);
      KeepConcat(a[1..], b, keep);
      assert Keep(a, keep) == head + Keep(a[1..], keep);
    } else {
      assert a + b == b;
    }
  }

  /** The visibility rule: a broadcast, a list of receivers containing the name, or the name itself. */
  predicate VisibleTo(m: Message, name: string)
  {
    match m.sendTo
    case To(r) => r == Broadcast || r == name
    case ToList(rs) => name in rs
    case Nobody => false
  }

  /** The sender rule: sent by the name, or by the literal sender "all". */
  predicate SentBy(m: Message, name: string)
  {
    m.sendFrom == Some(name) || m.sendFrom == Some(AllSentinel)
  }

  /** The identifier rule. */
  predicate HasId(m: Message, msgId: string)
  {
    m.msgId == msgId
  }

  /** The inclusive time-range rule. */
  predicate InTimeRange(m: Message, startTime: int, endTime: int)
  {
    startTime <= m.timestamp <= endTime
  }

  /** Python's normalisation of a slice bound against a length `n`. */
  function SliceBound(i: int, n: nat): (k: nat)
    ensures k <= n
    ensures 0 <= i <= n ==> k == i
    ensures i < 0 && 0 <= i + n ==> k == i + n
    ensures i > n ==> k == n
    ensures i + n < 0 ==> k == 0
  {
    if i < 0 then (if i + n < 0 then 0 else i + n) else if i > n then n else i
  }

  /** One line of the history listing: the bracketed time, then sender and receiver around
      " => ", then ": " and the content. */
  function HistoryLine(m: Message): (line: string)
    ensures var head := "[" + TimeText(m.timestamp) + "] ";
            && |head| <= |line| && line[..|head|] == head
            && OccursAt(SenderText(m.sendFrom) + " => " + RecipientText(m.sendTo), line, |head|)
    ensures var tail := ": " + PayloadText(m.content);
            |tail| <= |line| && line[|line| - |tail|..] == tail
  {
    var head := "[" + TimeText(m.timestamp) + "] ";
    var names := SenderText(m.sendFrom) + " => " + RecipientText(m.sendTo);
    var tail := ": " + PayloadText(m.content);
    ConcatThree(head, names, tail);
    head + names + tail
  }

  /** Where the three pieces of a concatenation sit in it. */
  lemma ConcatThree(head: string, names: string, tail: string)
    ensures var line := head + names + tail;
            && line[..|head|] == head && line[|head|..|head| + |names|] == names
            && line[|line| - |tail|..] == tail
  {
    var line := head + names + tail;
    assert line[..|head|] == head;
    assert line[|head|..|head| + |names|] == names;
    assert line[|line| - |tail|..] == tail;
  }

  function HistoryLines(ms: seq<Message>): (lines: seq<string>)
    ensures |lines| == |ms|
    ensures forall k :: 0 <= k < |ms| ==> lines[k] == HistoryLine(ms[k])
  {
    seq(|ms|, k requires 0 <= k < |ms| => HistoryLine(ms[k]))
  }

  /** The history listing of `ms`: one `HistoryLine` per message, in order, joined by newlines. */
  function Listing(ms: seq<Message>): (r: string)
    ensures r == "" <==> ms == []
  {
    var lines := HistoryLines(ms);
    JoinEmpty("\n", lines);
    Join("\n", lines)
  }

  /** The listing of one message is that message's line. */
  lemma ListingSingle(m: Message)
    ensures Listing([m]) == HistoryLine(m)
  {
    assert HistoryLines([m]) == [HistoryLine(m)];
  }

  /** One more message adds a newline and that message's line at the end of the listing. */
  lemma ListingSnoc(ms: seq<Message>, m: Message)
    requires ms != []
    ensures Listing(ms + [m]) == Listing(ms) + "\n" + HistoryLine(m)
  {
    assert HistoryLines(ms + [m]) == HistoryLines(ms) + [HistoryLine(m)];
    JoinSnoc("\n", HistoryLines(ms), HistoryLine(m));
  }

  /** A string found in `a` is found at the same place in any extension of `a`. */
  lemma OccursInExtension(needle: string, a: string, sep: string, rest: string, i: nat)
    requires OccursAt(needle, a, i)
    ensures OccursAt(needle, a + sep + rest, i)
  {
    assert (a + sep + rest)[i..i + |needle|] == a[i..i + |needle|];
  }

  /** A string found in `rest` is found, shifted, in `a + sep + rest`. */
  lemma OccursShifted(needle: string, a: string, sep: string, rest: string, i: nat)
    requires OccursAt(needle, rest, i)
    ensures OccursAt(needle, a + sep + rest, |a| + |sep| + i)
  {
    var j := |a| + |sep| + i;
    assert (a + sep + rest)[j..j + |needle|] == rest[i..i + |needle|];
  }

  /** Every part of a join occurs somewhere in it. */
  lemma {:induction false} JoinShowsEach(sep: string, parts: seq<string>, k: nat)
    requires k < |parts|
    ensures IsSubstring(parts[k], Join(sep, parts))
    decreases |parts|
  {
    var whole := Join(sep, parts);
    if |parts| == 1 {
      assert whole == parts[0];
      assert OccursAt(parts[k], whole, 0);
    } else {
      var rest := Join(sep, parts[1..]);
      assert whole == parts[0] + sep + rest;
      if k == 0 {
        OccursInExtension(parts[0], parts[0], sep, rest, 0);
        assert OccursAt(parts[k], whole, 0);
      } else {
        JoinShowsEach(sep, parts[1..], k - 1);
        var i :| 0 <= i <= |rest| && OccursAt(parts[1..][k - 1], rest, i);
        OccursShifted(parts[k], parts[0], sep, rest, i);
        assert OccursAt(parts[k], whole, |parts[0]| + |sep| + i);
      }
    }
  }

  /** Every message of the list has its line somewhere in the listing. */
  lemma ListingShowsEach(ms: seq<Message>, k: nat)
    requires k < |ms|
    ensures IsSubstring(HistoryLine(ms[k]), Listing(ms))
  {
    JoinShowsEach("\n", HistoryLines(ms), k);
  }

  class MessagePool {
    var messages: seq<Message>
    var historySnapshots: map<int, seq<Message>>

    constructor ()
      ensures messages == [] && historySnapshots == map[]
    {
      messages := [];
      historySnapshots := map[];
    }

    /** Appends one message. */
    method UpdateMessage(msg: Message)
      modifies this`messages
      ensures messages == old(messages) + [msg]
    {
      messages := messages + [msg];
    }

    /** The messages visible to `visible`; the sentinel "all" selects the whole list. */
    function GetVisibleMessages(visible: string): (r: seq<Message>)
      reads this
      ensures visible == AllSentinel ==> r == messages
      ensures visible != AllSentinel ==> r == Keep(messages, m => VisibleTo(m, visible))
      ensures visible != AllSentinel ==> forall m :: m in r <==> m in messages && VisibleTo(m, visible)
    {
      if visible == AllSentinel then messages else Keep(messages, m => VisibleTo(m, visible))
    }

    /** The messages sent by `name` or by "all"; the sentinel "all" selects the whole list. */
    function GetOnesMessages(name: string): (r: seq<Message>)
      reads this
      ensures name == AllSentinel ==> r == messages
      ensures name != AllSentinel ==> r == Keep(messages, m => SentBy(m, name))
      ensures name != AllSentinel ==> forall m :: m in r <==> m in messages && SentBy(m, name)
    {
      if name == AllSentinel then messages else Keep(messages, m => SentBy(m, name))
    }

    /** The messages `output_history` lists: the slice from `startIndex` to `endIndex`, where an
        absent end or one past the length means the length, and negative bounds count from the end. */
    function HistoryRange(startIndex: int, endIndex: Option<int>): (r: seq<Message>)
      reads this
      ensures |r| <= |messages| && forall m :: m in r ==> m in messages
      ensures 0 <= startIndex <= |messages| && (endIndex.None? || endIndex.value >= |messages|) ==>
                r == messages[startIndex..]
      ensures endIndex.Some? && 0 <= startIndex <= endIndex.value <= |messages| ==>
                r == messages[startIndex..endIndex.value]
      ensures -|messages| <= startIndex < 0 && endIndex.None? ==> r == messages[|messages| + startIndex..]
      ensures startIndex >= |messages| ==> r == []
      ensures endIndex.Some? && -|messages| <= endIndex.value < 0 && 0 <= startIndex <= |messages| + endIndex.value ==>
                r == messages[startIndex..|messages| + endIndex.value]
      ensures endIndex.Some? && -|messages| <= startIndex < 0 && |messages| + startIndex <= endIndex.value <= |messages| ==>
                r == messages[|messages| + startIndex..endIndex.value]
      ensures endIndex.Some? && -|messages| <= startIndex <= endIndex.value < 0 ==>
                r == messages[|messages| + startIndex..|messages| + endIndex.value]
      ensures endIndex.Some? && 0 <= endIndex.value <= startIndex ==> r == []
      ensures endIndex.Some? && endIndex.value + |messages| <= 0 ==> r == []
    {
      var n := |messages|;
      var e := if endIndex.None? || endIndex.value > n then n else endIndex.value;
      var a, b := SliceBound(startIndex, n), SliceBound(e, n);
      if a < b then messages[a..b] else []
    }

    /** The listing of `HistoryRange`, one line per message, joined by newlines. */
    function OutputHistory(startIndex: int, endIndex: Option<int>): (r: string)
      reads this
      ensures r == "" <==> HistoryRange(startIndex, endIndex) == []
      ensures r == Listing(HistoryRange(startIndex, endIndex))
      ensures forall k :: 0 <= k < |HistoryRange(startIndex, endIndex)| ==>
                IsSubstring(HistoryLine(HistoryRange(startIndex, endIndex)[k]), r)
    {
      var range := HistoryRange(startIndex, endIndex);
      forall k | 0 <= k < |range|
        ensures IsSubstring(HistoryLine(range[k]), Listing(range))
      {
        ListingShowsEach(range, k);
      }
      Listing(range)
    }

    /** Stores a copy of the live list under `timeIndex`, replacing any earlier one there. */
    method SnapshotState(timeIndex: int)
      modifies this`historySnapshots
      ensures historySnapshots == old(historySnapshots)[timeIndex := messages]
    {
      historySnapshots := historySnapshots[timeIndex := messages];
    }

    /** Restores the live list from the snapshot at `timeIndex`; no snapshot there, no change. */
    method RevertState(timeIndex: int)
      modifies this`messages
      ensures timeIndex in historySnapshots ==> messages == historySnapshots[timeIndex]
      ensures timeIndex !in historySnapshots ==> messages == old(messages)
    {
      if timeIndex in historySnapshots {
        messages := historySnapshots[timeIndex];
      }
    }

    /** Deletes every snapshot whose key is greater than `timeIndex`. */
    method PruneSnapshotsAfter(timeIndex: int)
      modifies this`historySnapshots
      ensures historySnapshots == map k | k in old(historySnapshots) && k <= timeIndex :: old(historySnapshots)[k]
    {
      var keysToRemove := set k | k in historySnapshots && k > timeIndex;
      while keysToRemove != {}
        invariant keysToRemove <= old(historySnapshots).Keys
        invariant forall k :: k in keysToRemove ==> k > timeIndex
        invariant historySnapshots.Keys == (set k | k in old(historySnapshots) && k <= timeIndex) + keysToRemove
        invariant forall k :: k in historySnapshots ==> historySnapshots[k] == old(historySnapshots)[k]
        decreases keysToRemove
      {
        var k :| k in keysToRemove;
        historySnapshots := map j | j in historySnapshots && j != k :: historySnapshots[j];
        keysToRemove := keysToRemove - {k};
      }
    }

    /** The messages carrying id `msgId`, in order. */
    function FindMessagesById(msgId: string): (r: seq<Message>)
      reads this
      ensures r == Keep(messages, m => HasId(m, msgId))
      ensures forall m :: m in r <==> m in messages && HasId(m, msgId)
    {
      Keep(messages, m => HasId(m, msgId))
    }

    /** The messages whose timestamp lies in `[startTime, endTime]`, in order. */
    function FindMessagesInTimeRange(startTime: int, endTime: int): (r: seq<Message>)
      reads this
      ensures r == Keep(messages, m => InTimeRange(m, startTime, endTime))
      ensures forall m :: m in r <==> m in messages && startTime <= m.timestamp <= endTime
    {
      Keep(messages, m => InTimeRange(m, startTime, endTime))
    }

    /** Empties the live list and forgets every snapshot. */
    method ClearPool()
      modifies this
      ensures messages == [] && historySnapshots == map[]
    {
      messages := [];
      historySnapshots := map[];
    }
  }

  /** A broadcast message is visible to every name. */
  lemma BroadcastVisibleToEveryone(p: MessagePool, m: Message, name: string)
    requires m in p.messages && m.sendTo == To(Broadcast)
    ensures m in p.GetVisibleMessages(name)
  {
  }

  /** A message addressed to one name `q` (not the broadcast marker) is visible to `q`, to the
      sentinel "all", and to no other name. */
  lemma DirectedVisibleOnlyToReceiver(p: MessagePool, m: Message, q: string, name: string)
    requires m in p.messages && m.sendTo == To(q) && q != Broadcast
    ensures m in p.GetVisibleMessages(name) <==> name == q || name == AllSentinel
  {
  }

  /** Visibility is stable under appends: the visible list of a longer pool extends the old one. */
  lemma {:induction false} VisibleExtends(before: seq<Message>, extra: seq<Message>, name: string)
    requires name != AllSentinel
    ensures Keep(before + extra, m => VisibleTo(m, name))
         == Keep(before, m => VisibleTo(m, name)) + Keep(extra, m => VisibleTo(m, name))
  {
    KeepConcat(before, extra, m => VisibleTo(m, name));
  }
}
