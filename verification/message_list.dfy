/** The list updaters the hook passes to `setMessages`: a map that rewrites the
    content of the message with a given id, a map that marks it complete, and
    the filter that drops loading messages. */
module MessageList {
  import opened ChatTypes

  /** The new content of a matching message: appended to, or replaced. */
  function NewContent(old_: string, text: string, append: bool): (c: string)
    ensures append ==> c == old_ + text
    ensures !append ==> c == text
  {
    if append then old_ + text else text
  }

  /** `prev.map(msg => msg.id === id ? {...msg, content: ...} : msg)`. */
  function UpdateContent(ms: seq<Message>, id: string, text: string, append: bool): (r: seq<Message>)
    ensures |r| == |ms|
    ensures forall k :: 0 <= k < |ms| && ms[k].id != id ==> r[k] == ms[k]
    ensures forall k :: 0 <= k < |ms| && ms[k].id == id ==>
              r[k] == ms[k].(content := NewContent(ms[k].content, text, append))
  {
    if ms == [] then []
    else
      var m := ms[0];
      var rest := UpdateContent(ms[1..], id, text, append);
      var head := if m.id == id then m.(content := NewContent(m.content, text, append)) else m;
      [head] + rest
  }

  /** `prev.map(msg => msg.id === id ? {...msg, isLoading: false} : msg)`. */
  function MarkComplete(ms: seq<Message>, id: string): (r: seq<Message>)
    ensures |r| == |ms|
    ensures forall k :: 0 <= k < |ms| && ms[k].id != id ==> r[k] == ms[k]
    ensures forall k :: 0 <= k < |ms| && ms[k].id == id ==> r[k] == ms[k].(isLoading := Some(false))
  {
    if ms == [] then []
    else
      var m := ms[0];
      var head := if m.id == id then m.(isLoading := Some(false)) else m;
      [head] + MarkComplete(ms[1..], id)
  }

  /** `prev.filter(msg => !msg.isLoading)`. */
  function RemoveLoading(ms: seq<Message>): (r: seq<Message>)
    ensures |r| <= |ms|
    ensures forall m :: m in r <==> m in ms && !Loading(m)
  {
    if ms == [] then []
    else if Loading(ms[0]) then RemoveLoading(ms[1..])
    else [ms[0]] + RemoveLoading(ms[1..])
  }

  predicate NoneLoading(ms: seq<Message>)
  {
    forall k :: 0 <= k < |ms| ==> !Loading(ms[k])
  }

  /** Ids are pairwise distinct. */
  predicate UniqueIds(ms: seq<Message>)
  {
    forall j, k :: 0 <= j < k < |ms| ==> ms[j].id != ms[k].id
  }

  /** The filter keeps order: it works element by element over a split list. */
  lemma {:induction false} RemoveLoadingAppend(a: seq<Message>, b: seq<Message>)
    ensures RemoveLoading(a + b) == RemoveLoading(a) + RemoveLoading(b)
  {
    if a != [] {
      assert (a + b)[0] == a[0];
      assert (a + b)[1..] == a[1..] + b;
      RemoveLoadingAppend(a[1..], b);
    } else {
      assert a + b == b;
    }
  }

  /** A list with no loading message is left as it is. */
  lemma {:induction false} RemoveLoadingNoneLoading(ms: seq<Message>)
    requires NoneLoading(ms)
    ensures RemoveLoading(ms) == ms
  {
    if ms != [] {
      RemoveLoadingNoneLoading(ms[1..]);
    }
  }

  /** Running the cleanup twice removes nothing more: the stream-error handler
      and the catch block both run it on one failure. */
  lemma RemoveLoadingIdempotent(ms: seq<Message>)
    ensures NoneLoading(RemoveLoading(ms))
    ensures RemoveLoading(RemoveLoading(ms)) == RemoveLoading(ms)
  {
    var r := RemoveLoading(ms);
    assert forall k :: 0 <= k < |r| ==> r[k] in r;
    RemoveLoadingNoneLoading(r);
  }

  /** Ids survive every updater, so unique ids stay unique. */
  lemma {:induction false} RemoveLoadingUniqueIds(ms: seq<Message>)
    requires UniqueIds(ms)
    ensures UniqueIds(RemoveLoading(ms))
  {
    if ms != [] {
      RemoveLoadingUniqueIds(ms[1..]);
      var rest := RemoveLoading(ms[1..]);
      forall m | m in rest ensures m.id != ms[0].id {
        var k :| 0 <= k < |ms[1..]| && ms[1..][k] == m;
        assert ms[k + 1] == m;
      }
    }
  }

  /** The text a sequence of appends leaves: c1 + ... + cn. */
  function Concat(cs: seq<string>): string
  {
    if cs == [] then "" else Concat(cs[..|cs| - 1]) + cs[|cs| - 1]
  }

  /** Appending a chunk to a message changes only that message, even when the
      list is split around it. */
  lemma UpdateContentSplit(a: seq<Message>, m: Message, b: seq<Message>, text: string, append: bool)
    requires forall k :: 0 <= k < |a| ==> a[k].id != m.id
    requires forall k :: 0 <= k < |b| ==> b[k].id != m.id
    ensures UpdateContent(a + [m] + b, m.id, text, append)
              == a + [m.(content := NewContent(m.content, text, append))] + b
  {
    var ms := a + [m] + b;
    var r := UpdateContent(ms, m.id, text, append);
    var e := a + [m.(content := NewContent(m.content, text, append))] + b;
    assert |r| == |e|;
    forall k | 0 <= k < |r| ensures r[k] == e[k] {
      if k < |a| {
        assert ms[k] == a[k];
      } else if k == |a| {
        assert ms[k] == m;
      } else {
        assert ms[k] == b[k - |a| - 1];
      }
    }
  }

  /** Marking a message complete changes only that message. */
  lemma MarkCompleteSplit(a: seq<Message>, m: Message, b: seq<Message>)
    requires forall k :: 0 <= k < |a| ==> a[k].id != m.id
    requires forall k :: 0 <= k < |b| ==> b[k].id != m.id
    ensures MarkComplete(a + [m] + b, m.id) == a + [m.(isLoading := Some(false))] + b
  {
    var ms := a + [m] + b;
    var r := MarkComplete(ms, m.id);
    var e := a + [m.(isLoading := Some(false))] + b;
    assert |r| == |e|;
    forall k | 0 <= k < |r| ensures r[k] == e[k] {
      if k < |a| {
        assert ms[k] == a[k];
      } else if k == |a| {
        assert ms[k] == m;
      } else {
        assert ms[k] == b[k - |a| - 1];
      }
    }
  }
}
