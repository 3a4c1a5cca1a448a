/**
 * The process-wide channel registry of CoinSocket: a set of channel names and
 * an ordered multi-association from channel-set name to channel name.
 *
 * The multi-association is a `std::multimap<std::string, std::string>`. Its
 * observable shape is a sequence of (set name, channel) items whose keys never
 * decrease; an insertion goes to the upper bound of its key, so items with
 * equal keys stay in insertion order and a repeated pair is kept twice. A
 * channel range is a pair of positions in that sequence.
 */
module Channels {

  type Channel = string
  type ChannelSetItem = (string, string)

  /** A pair of positions `begin <= end` into the multimap's iteration order. */
  datatype ChannelRange = ChannelRange(begin: nat, end: nat)

  /** `isChannelRangeEmpty`: the range's two iterators coincide. */
  function IsChannelRangeEmpty(r: ChannelRange): bool
  {
    r.begin == r.end
  }

  // ---------------------------------------------------------------------------
  // The key order: std::string's operator<, lexicographic by character, with a
  // proper prefix ordered first.

  predicate Less(a: string, b: string)
    decreases |a|
  {
    |b| > 0 && (|a| == 0 || a[0] < b[0] || (a[0] == b[0] && Less(a[1..], b[1..])))
  }

  lemma {:induction false} LessIrreflexive(a: string)
    ensures !Less(a, a)
    decreases |a|
  {
    if |a| > 0 {
      LessIrreflexive(a[1..]);
    }
  }

  lemma {:induction false} LessTransitive(a: string, b: string, c: string)
    ensures Less(a, b) && Less(b, c) ==> Less(a, c)
    decreases |a|
  {
    if |a| > 0 && |b| > 0 && |c| > 0 && a[0] == b[0] && b[0] == c[0] {
      LessTransitive(a[1..], b[1..], c[1..]);
    }
  }

  lemma {:induction false} LessTotal(a: string, b: string)
    ensures a == b || Less(a, b) || Less(b, a)
    decreases |a|
  {
    if |a| > 0 && |b| > 0 && a[0] == b[0] {
      LessTotal(a[1..], b[1..]);
      if a[1..] == b[1..] {
        assert a == [a[0]] + a[1..] && b == [b[0]] + b[1..];
      }
    }
  }

  /** A proper prefix sorts first, and nothing sorts before its own prefix. */
  lemma {:induction false} LessProperPrefix(a: string, b: string)
    ensures Less(a, a + b) <==> |b| > 0
    ensures !Less(a + b, a)
    decreases |a|
  {
    if |a| > 0 {
      LessProperPrefix(a[1..], b);
      assert (a + b)[1..] == a[1..] + b;
    }
  }

  /** Two names that agree up to position `i` and differ there are ordered by their characters at `i`. */
  lemma {:induction false} LessFirstDifference(a: string, b: string, i: nat)
    requires i < |a| && i < |b| && a[..i] == b[..i] && a[i] != b[i]
    ensures Less(a, b) <==> a[i] < b[i]
    decreases i
  {
    if i > 0 {
      assert a[0] == a[..i][0] == b[..i][0] == b[0];
      assert a[1..][..i - 1] == a[..i][1..] == b[..i][1..] == b[1..][..i - 1];
      LessFirstDifference(a[1..], b[1..], i - 1);
    }
  }

  /** `a <= b` and `b <= c` give `a <= c`, where `x <= y` is `!Less(y, x)`. */
  lemma NotLessTransitive(a: string, b: string, c: string)
    requires !Less(b, a) && !Less(c, b)
    ensures !Less(c, a)
  {
    LessTotal(a, b);
    LessTransitive(c, a, b);
  }

  // ---------------------------------------------------------------------------
  // The multimap as a sequence.

  /** Keys never decrease along `e`: the iteration order of a multimap. */
  ghost predicate SortedByKey(e: seq<ChannelSetItem>)
  {
    forall i, j :: 0 <= i < j < |e| ==> !Less(e[j].0, e[i].0)
  }

  /**
   * `std::multimap::insert`: the item goes after every item whose key is not
   * greater than its own, that is, at the upper bound of its key.
   */
  function InsertAtUpperBound(e: seq<ChannelSetItem>, item: ChannelSetItem): (r: seq<ChannelSetItem>)
    ensures |r| == |e| + 1
  {
    if e == [] then [item]
    else if Less(item.0, e[0].0) then [item] + e
    else [e[0]] + InsertAtUpperBound(e[1..], item)
  }

  /** The insertion adds the item and loses nothing: duplicates are kept. */
  lemma {:induction false} InsertAddsItem(e: seq<ChannelSetItem>, item: ChannelSetItem)
    ensures multiset(InsertAtUpperBound(e, item)) == multiset(e) + multiset{item}
    decreases |e|
  {
    if e != [] && !Less(item.0, e[0].0) {
      InsertAddsItem(e[1..], item);
      assert e == [e[0]] + e[1..];
    }
  }

  /** The multimap obtained by inserting `items` one after the other into an empty one. */
  function Build(items: seq<ChannelSetItem>): seq<ChannelSetItem>
  {
    if items == [] then []
    else InsertAtUpperBound(Build(items[..|items| - 1]), items[|items| - 1])
  }

  /** The channels paired with `name` in `e`, in the order of `e`. */
  function ChannelsOf(e: seq<ChannelSetItem>, name: string): seq<Channel>
  {
    if e == [] then []
    else (if e[0].0 == name then [e[0].1] else []) + ChannelsOf(e[1..], name)
  }

  /** The channel halves of `e`. */
  function Values(e: seq<ChannelSetItem>): seq<Channel>
  {
    seq(|e|, i requires 0 <= i < |e| => e[i].1)
  }

  lemma {:induction false} ChannelsOfAppend(a: seq<ChannelSetItem>, b: seq<ChannelSetItem>, name: string)
    ensures ChannelsOf(a + b, name) == ChannelsOf(a, name) + ChannelsOf(b, name)
    decreases |a|
  {
    if a != [] {
      assert (a + b)[1..] == a[1..] + b;
      ChannelsOfAppend(a[1..], b, name);
    } else {
      assert a + b == b;
    }
  }

  lemma {:induction false} ChannelsOfNone(e: seq<ChannelSetItem>, name: string)
    requires forall i :: 0 <= i < |e| ==> e[i].0 != name
    ensures ChannelsOf(e, name) == []
    decreases |e|
  {
    if e != [] {
      ChannelsOfNone(e[1..], name);
    }
  }

  lemma {:induction false} ChannelsOfAll(e: seq<ChannelSetItem>, name: string)
    requires forall i :: 0 <= i < |e| ==> e[i].0 == name
    ensures ChannelsOf(e, name) == Values(e)
    decreases |e|
  {
    if e != [] {
      ChannelsOfAll(e[1..], name);
      assert Values(e) == [e[0].1] + Values(e[1..]);
    }
  }

  /** The channels of `name` in `e` are those of the block `e[lo..hi]` when that block holds all items with key `name` and only those. */
  lemma ChannelsOfBlock(e: seq<ChannelSetItem>, lo: nat, hi: nat, name: string)
    requires lo <= hi <= |e|
    requires forall i :: 0 <= i < |e| && !(lo <= i < hi) ==> e[i].0 != name
    requires forall i :: lo <= i < hi ==> e[i].0 == name
    ensures ChannelsOf(e, name) == Values(e[lo..hi])
  {
    assert e == e[..lo] + e[lo..hi] + e[hi..];
    ChannelsOfAppend(e[..lo] + e[lo..hi], e[hi..], name);
    ChannelsOfAppend(e[..lo], e[lo..hi], name);
    ChannelsOfNone(e[..lo], name);
    ChannelsOfNone(e[hi..], name);
    ChannelsOfAll(e[lo..hi], name);
  }

  /** Inserting at the upper bound keeps the keys ordered. */
  lemma {:induction false} InsertKeepsSorted(e: seq<ChannelSetItem>, item: ChannelSetItem)
    requires SortedByKey(e)
    ensures SortedByKey(InsertAtUpperBound(e, item))
    decreases |e|
  {
    var r := InsertAtUpperBound(e, item);
    if e == [] {
    } else if Less(item.0, e[0].0) {
      assert r == [item] + e;
      forall j | 0 < j < |r|
        ensures !Less(r[j].0, item.0)
      {
        assert r[j] == e[j - 1];
        LessIrreflexive(e[0].0);
        LessTransitive(r[j].0, item.0, e[0].0);
      }
    } else {
      var tail := InsertAtUpperBound(e[1..], item);
      InsertKeepsSorted(e[1..], item);
      InsertAddsItem(e[1..], item);
      assert r == [e[0]] + tail;
      forall j | 0 <= j < |tail|
        ensures !Less(tail[j].0, e[0].0)
      {
        assert tail[j] in multiset(tail);
        if tail[j] != item {
          assert tail[j] in multiset(e[1..]);
          var k :| 0 <= k < |e[1..]| && e[1..][k] == tail[j];
          assert e[k + 1] == tail[j];
        }
      }
    }
  }

  /**
   * Inserting at the upper bound appends the new channel to the channels of
   * its own key and leaves every other key's channels alone.
   */
  lemma {:induction false} InsertKeepsOrder(e: seq<ChannelSetItem>, item: ChannelSetItem, name: string)
    requires SortedByKey(e)
    ensures ChannelsOf(InsertAtUpperBound(e, item), name)
         == ChannelsOf(e, name) + (if item.0 == name then [item.1] else [])
    decreases |e|
  {
    var mine: seq<Channel> := if item.0 == name then [item.1] else [];
    if e == [] {
    } else if Less(item.0, e[0].0) {
      var r := [item] + e;
      assert r[1..] == e;
      if item.0 == name {
        LessIrreflexive(e[0].0);
        forall i | 0 <= i < |e|
          ensures e[i].0 != name
        {
          LessTransitive(e[i].0, e[0].0, e[0].0);
        }
        ChannelsOfNone(e, name);
      }
      assert ChannelsOf(r, name) == mine + ChannelsOf(e, name);
    } else {
      var head: seq<Channel> := if e[0].0 == name then [e[0].1] else [];
      var tail := InsertAtUpperBound(e[1..], item);
      assert SortedByKey(e[1..]);
      InsertKeepsOrder(e[1..], item, name);
      var r := [e[0]] + tail;
      assert r[1..] == tail;
      assert ChannelsOf(r, name) == head + ChannelsOf(tail, name);
      assert ChannelsOf(e, name) == head + ChannelsOf(e[1..], name);
    }
  }

  lemma BuildAppend(items: seq<ChannelSetItem>, item: ChannelSetItem)
    ensures Build(items + [item]) == InsertAtUpperBound(Build(items), item)
  {
    assert (items + [item])[..|items|] == items;
  }

  /** The multimap holds exactly the pairs inserted, sorted by key. */
  lemma {:induction false} BuildSorted(items: seq<ChannelSetItem>)
    ensures SortedByKey(Build(items))
    ensures multiset(Build(items)) == multiset(items)
    decreases |items|
  {
    if items != [] {
      var prefix := items[..|items| - 1];
      BuildSorted(prefix);
      InsertKeepsSorted(Build(prefix), items[|items| - 1]);
      InsertAddsItem(Build(prefix), items[|items| - 1]);
      assert items == prefix + [items[|items| - 1]];
    }
  }

  /**
   * The channels of each set name come out of the multimap in the order in
   * which they were inserted.
   */
  lemma {:induction false} BuildKeepsInsertionOrder(items: seq<ChannelSetItem>, name: string)
    ensures ChannelsOf(Build(items), name) == ChannelsOf(items, name)
    decreases |items|
  {
    if items != [] {
      var prefix, last := items[..|items| - 1], items[|items| - 1];
      BuildKeepsInsertionOrder(prefix, name);
      BuildSorted(prefix);
      InsertKeepsOrder(Build(prefix), last, name);
      assert items == prefix + [last];
      ChannelsOfAppend(prefix, [last], name);
    }
  }

  /** The position found by scanning to the first greater key is where `InsertAtUpperBound` puts the item. */
  lemma {:induction false} InsertAtUpperBoundAt(e: seq<ChannelSetItem>, item: ChannelSetItem, i: nat)
    requires i <= |e|
    requires forall j :: 0 <= j < i ==> !Less(item.0, e[j].0)
    requires i == |e| || Less(item.0, e[i].0)
    ensures InsertAtUpperBound(e, item) == e[..i] + [item] + e[i..]
    decreases i
  {
    if i == 0 {
      if e != [] {
        assert e[0..] == e;
      }
    } else {
      var t := e[1..];
      assert !Less(item.0, e[0].0);
      InsertAtUpperBoundAt(t, item, i - 1);
      assert InsertAtUpperBound(e, item) == [e[0]] + InsertAtUpperBound(t, item);
      assert e[..i] == [e[0]] + t[..i - 1];
      assert e[i..] == t[i - 1..];
    }
  }

  /** `lower_bound`: the first position whose key is not less than `key`. */
  method LowerBound(e: seq<ChannelSetItem>, key: string) returns (lo: nat)
    requires SortedByKey(e)
    ensures lo <= |e|
    ensures forall i :: 0 <= i < lo ==> Less(e[i].0, key)
    ensures forall i :: lo <= i < |e| ==> !Less(e[i].0, key)
  {
    lo := 0;
    while lo < |e| && Less(e[lo].0, key)
      invariant lo <= |e|
      invariant forall i :: 0 <= i < lo ==> Less(e[i].0, key)
    {
      lo := lo + 1;
    }
    forall i | lo <= i < |e|
      ensures !Less(e[i].0, key)
    {
      LessIrreflexive(e[lo].0);
      NotLessTransitive(key, e[lo].0, e[i].0);
    }
  }

  /** `upper_bound`: the first position whose key is greater than `key`. */
  method UpperBound(e: seq<ChannelSetItem>, key: string) returns (hi: nat)
    requires SortedByKey(e)
    ensures hi <= |e|
    ensures forall i :: 0 <= i < hi ==> !Less(key, e[i].0)
    ensures forall i :: hi <= i < |e| ==> Less(key, e[i].0)
  {
    hi := 0;
    while hi < |e| && !Less(key, e[hi].0)
      invariant hi <= |e|
      invariant forall i :: 0 <= i < hi ==> !Less(key, e[i].0)
    {
      hi := hi + 1;
    }
    forall i | hi <= i < |e|
      ensures Less(key, e[i].0)
    {
      LessTotal(e[hi].0, e[i].0);
      LessTransitive(key, e[hi].0, e[i].0);
    }
  }

  /**
   * `isChannelRangeEmpty` on the range a key occupies holds exactly when no
   * channel is paired with that key.
   */
  lemma EmptyRangeHasNoChannels(e: seq<ChannelSetItem>, r: ChannelRange, name: string)
    requires r.begin <= r.end <= |e|
    requires forall i :: r.begin <= i < r.end ==> e[i].0 == name
    requires forall i :: 0 <= i < |e| && !(r.begin <= i < r.end) ==> e[i].0 != name
    ensures IsChannelRangeEmpty(r) <==> ChannelsOf(e, name) == []
  {
    ChannelsOfBlock(e, r.begin, r.end, name);
    assert |Values(e[r.begin..r.end])| == r.end - r.begin;
  }

  // ---------------------------------------------------------------------------
  // The registry.

  class ChannelRegistry {
    /** `Channels`: the set of channel names. */
    var channels: set<Channel>
    /** `ChannelSets`: the multimap, in its iteration order. */
    var channelSets: seq<ChannelSetItem>

    /** Every name passed to `AddChannel`, in call order. */
    ghost var addedChannels: seq<Channel>
    /** Every pair passed to `AddChannelToSet`, in call order. */
    ghost var addedItems: seq<ChannelSetItem>

    ghost predicate Valid()
      reads this
    {
      && channels == (set c | c in addedChannels)
      && channelSets == Build(addedItems)
    }

    constructor ()
      ensures Valid()
      ensures channels == {} && channelSets == []
      ensures addedChannels == [] && addedItems == []
    {
      channels := {};
      channelSets := [];
      addedChannels := [];
      addedItems := [];
    }

    /** `addChannel`: set insertion, a no-op for a name already present. */
    method AddChannel(channel: Channel)
      requires Valid()
      modifies this
      ensures Valid()
      ensures channels == old(channels) + {channel}
      ensures channel in old(channels) ==> channels == old(channels)
      ensures addedChannels == old(addedChannels) + [channel]
      ensures channelSets == old(channelSets) && addedItems == old(addedItems)
    {
      channels := channels + {channel};
      addedChannels := addedChannels + [channel];
    }

    /** `channelExists`: whether `channel` was ever added. */
    method ChannelExists(channel: Channel) returns (found: bool)
      requires Valid()
      ensures found <==> channel in addedChannels
    {
      found := channel in channels;
    }

    /** `getChannels`: exactly the names added so far, each once. */
    method GetChannels() returns (result: set<Channel>)
      requires Valid()
      ensures forall c :: c in result <==> c in addedChannels
    {
      result := channels;
    }

    /**
     * `getChannelSets`: the multimap, sorted by set name, holding every pair
     * added (duplicates included) with each set's channels in insertion order.
     */
    method GetChannelSets() returns (result: seq<ChannelSetItem>)
      requires Valid()
      ensures SortedByKey(result)
      ensures multiset(result) == multiset(addedItems)
      ensures forall name :: ChannelsOf(result, name) == ChannelsOf(addedItems, name)
    {
      result := channelSets;
      BuildSorted(addedItems);
      forall name
        ensures ChannelsOf(result, name) == ChannelsOf(addedItems, name)
      {
        BuildKeepsInsertionOrder(addedItems, name);
      }
    }

    /**
     * `addChannelToSet`: one more `(channelSet, channel)` pair, kept even when
     * it repeats an earlier one, placed after every pair with the same key.
     */
    method AddChannelToSet(channelSet: string, channel: Channel)
      requires Valid()
      modifies this
      ensures Valid()
      ensures addedItems == old(addedItems) + [(channelSet, channel)]
      ensures channelSets == InsertAtUpperBound(old(channelSets), (channelSet, channel))
      ensures multiset(channelSets) == multiset(old(channelSets)) + multiset{(channelSet, channel)}
      ensures ChannelsOf(channelSets, channelSet) == ChannelsOf(old(channelSets), channelSet) + [channel]
      ensures forall name :: name != channelSet ==> ChannelsOf(channelSets, name) == ChannelsOf(old(channelSets), name)
      ensures channels == old(channels) && addedChannels == old(addedChannels)
    {
      var item := (channelSet, channel);
      BuildSorted(addedItems);
      var i := UpperBound(channelSets, channelSet);
      InsertAtUpperBoundAt(channelSets, item, i);
      InsertAddsItem(channelSets, item);
      forall name
        ensures ChannelsOf(InsertAtUpperBound(channelSets, item), name)
             == ChannelsOf(channelSets, name) + (if channelSet == name then [channel] else [])
      {
        InsertKeepsOrder(channelSets, item, name);
      }
      BuildAppend(addedItems, item);
      channelSets := channelSets[..i] + [item] + channelSets[i..];
      addedItems := addedItems + [item];
    }

    /**
     * `getChannelRange`: the positions of exactly the pairs whose key is
     * `channelSet`; their channels are the ones added to that set, in the
     * order they were added. The range is empty exactly when the set name was
     * never used.
     */
    method GetChannelRange(channelSet: string) returns (range: ChannelRange)
      requires Valid()
      ensures range.begin <= range.end <= |channelSets|
      ensures forall i :: range.begin <= i < range.end ==> channelSets[i].0 == channelSet
      ensures forall i :: 0 <= i < |channelSets| && !(range.begin <= i < range.end) ==> channelSets[i].0 != channelSet
      ensures Values(channelSets[range.begin..range.end]) == ChannelsOf(addedItems, channelSet)
      ensures IsChannelRangeEmpty(range) <==> forall i :: 0 <= i < |addedItems| ==> addedItems[i].0 != channelSet
    {
      BuildSorted(addedItems);
      var e := channelSets;
      var lo := LowerBound(e, channelSet);
      var hi := UpperBound(e, channelSet);
      assert lo <= hi by {
        if hi < |e| {
          LessTransitive(e[hi].0, channelSet, e[hi].0);
          LessIrreflexive(e[hi].0);
        }
      }
      range := ChannelRange(lo, hi);
      LessIrreflexive(channelSet);
      forall i | lo <= i < hi
        ensures e[i].0 == channelSet
      {
        LessTotal(e[i].0, channelSet);
      }
      ChannelsOfBlock(e, lo, hi, channelSet);
      BuildKeepsInsertionOrder(addedItems, channelSet);

      if lo == hi {
        assert multiset(e) == multiset(addedItems);
        forall i | 0 <= i < |addedItems|
          ensures addedItems[i].0 != channelSet
        {
          assert addedItems[i] in multiset(e);
        }
      } else {
        assert e[lo] in multiset(addedItems);
      }
    }
  }
}
