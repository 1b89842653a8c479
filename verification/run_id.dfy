/** Run-id extraction from streamed chunks.

    Each decoded chunk is searched for the regular expression
    `"id":"([^"]+)"` (no global flag), so the result is the leftmost match, and
    its capture group is a non-empty run of non-quote characters closed by a
    quote. The stream loop keeps the first id it finds and never looks again. */
module RunIdExtraction {
  import opened ChatTypes

  const Quote: char := '"'

  /** The literal text the pattern opens with: "id":" */
  const IdOpen: string := ['"', 'i', 'd', '"', ':', '"']

  /** Position of the first quote at or after `j`, or `|s|` when there is none. */
  function NextQuote(s: string, j: nat): (k: nat)
    requires j <= |s|
    ensures j <= k <= |s|
    ensures forall t :: j <= t < k ==> s[t] != Quote
    ensures k < |s| ==> s[k] == Quote
    decreases |s| - j
  {
    if j == |s| || s[j] == Quote then j else NextQuote(s, j + 1)
  }

  /** The regular expression matches at position `i`: the opening text, at least
      one non-quote character, and a closing quote somewhere after them. */
  predicate MatchAt(s: string, i: nat)
  {
    && i + |IdOpen| < |s|
    && s[i .. i + |IdOpen|] == IdOpen
    && s[i + |IdOpen|] != Quote
    && NextQuote(s, i + |IdOpen|) < |s|
  }

  /** The capture group of the match at `i`: everything up to the closing quote. */
  function CaptureAt(s: string, i: nat): (id: string)
    requires MatchAt(s, i)
    ensures |id| > 0 && Quote !in id
  {
    var k := NextQuote(s, i + |IdOpen|);
    s[i + |IdOpen| .. k]
  }

  /** Leftmost match position at or after `from`: what String.prototype.match
      tries, one start position after another. */
  function FindMatch(s: string, from: nat): (r: Option<nat>)
    requires from <= |s|
    ensures r.Some? ==> from <= r.value < |s| && MatchAt(s, r.value)
    ensures r.Some? ==> forall j :: from <= j < r.value ==> !MatchAt(s, j)
    ensures r.None? ==> forall j :: from <= j < |s| ==> !MatchAt(s, j)
    decreases |s| - from
  {
    if from == |s| then None
    else if MatchAt(s, from) then Some(from)
    else FindMatch(s, from + 1)
  }

  /** `chunk.match(/"id":"([^"]+)"/)?.[1]`, as an option. */
  function ExtractId(chunk: string): (r: Option<string>)
    ensures r.Some? ==> |r.value| > 0 && Quote !in r.value
  {
    match FindMatch(chunk, 0)
    case None => None
    case Some(i) => Some(CaptureAt(chunk, i))
  }

  /** Reference definition of an occurrence: `id` sits at `i` between the opening
      text and a closing quote, is non-empty and holds no quote. */
  ghost predicate Occurs(s: string, i: nat, id: string)
  {
    && |id| > 0
    && Quote !in id
    && i + |IdOpen| + |id| < |s|
    && s[i .. i + |IdOpen| + |id| + 1] == IdOpen + id + [Quote]
  }

  lemma MatchAtOccurs(s: string, i: nat)
    requires MatchAt(s, i)
    ensures Occurs(s, i, CaptureAt(s, i))
  {
    var id := CaptureAt(s, i);
    var n := |IdOpen|;
    var k := NextQuote(s, i + n);
    assert k == i + n + |id|;
    assert s[i .. k + 1] == s[i .. i + n] + s[i + n .. k] + [s[k]];
  }

  lemma OccursMatchAt(s: string, i: nat, id: string)
    requires Occurs(s, i, id)
    ensures MatchAt(s, i) && CaptureAt(s, i) == id
  {
    var n := |IdOpen|;
    var e := i + n + |id|;
    var w := s[i .. e + 1];
    assert w == IdOpen + id + [Quote];
    assert s[i .. i + n] == w[..n];
    assert forall t :: i + n <= t < e ==> s[t] == w[t - i] == id[t - i - n];
    assert s[e] == w[n + |id|] == Quote;
    assert s[i + n] == id[0];
    var k := NextQuote(s, i + n);
    assert k <= e;
    assert k == e;
    assert s[i + n .. e] == w[n .. n + |id|];
  }

  /** The extracted id is the leftmost occurrence. */
  lemma ExtractIdSound(s: string)
    requires ExtractId(s).Some?
    ensures exists i: nat :: Occurs(s, i, ExtractId(s).value)
              && forall j, id :: 0 <= j < i ==> !Occurs(s, j, id)
  {
    var i := FindMatch(s, 0).value;
    MatchAtOccurs(s, i);
    forall j, id | 0 <= j < i
      ensures !Occurs(s, j, id)
    {
      if Occurs(s, j, id) {
        OccursMatchAt(s, j, id);
        assert false;
      }
    }
  }

  /** An occurrence with none before it is what the extraction returns. */
  lemma ExtractIdLeftmost(s: string, i: nat, id: string)
    requires Occurs(s, i, id)
    requires forall j, id' :: 0 <= j < i ==> !Occurs(s, j, id')
    ensures ExtractId(s) == Some(id)
  {
    OccursMatchAt(s, i, id);
    var r := FindMatch(s, 0);
    assert r.Some?;
    if r.value < i {
      MatchAtOccurs(s, r.value);
      assert false;
    }
  }

  /** No occurrence anywhere exactly when the extraction finds nothing. */
  lemma ExtractIdNone(s: string)
    ensures ExtractId(s).None? <==> forall i: nat, id :: !Occurs(s, i, id)
  {
    if ExtractId(s).Some? {
      ExtractIdSound(s);
    } else {
      forall i: nat, id
        ensures !Occurs(s, i, id)
      {
        if Occurs(s, i, id) {
          OccursMatchAt(s, i, id);
          assert false;
        }
      }
    }
  }

  /** Run id of a stream: the id of the first chunk that has one. */
  function FirstId(chunks: seq<string>): (r: Option<string>)
    ensures r.Some? ==> |r.value| > 0 && Quote !in r.value
  {
    if chunks == [] then None
    else if ExtractId(chunks[0]).Some? then ExtractId(chunks[0])
    else FirstId(chunks[1..])
  }

  /** The run id is that of the first chunk holding one; it is absent only
      when no chunk holds one. */
  lemma {:induction false} FirstIdIsFirst(chunks: seq<string>)
    ensures FirstId(chunks).Some? ==>
              exists k :: 0 <= k < |chunks| && ExtractId(chunks[k]) == FirstId(chunks)
                && forall j :: 0 <= j < k ==> ExtractId(chunks[j]).None?
    ensures FirstId(chunks).None? ==> forall k :: 0 <= k < |chunks| ==> ExtractId(chunks[k]).None?
  {
    if chunks != [] && ExtractId(chunks[0]).None? {
      var rest := chunks[1..];
      FirstIdIsFirst(rest);
      assert FirstId(chunks) == FirstId(rest);
      if FirstId(rest).Some? {
        var k :| 0 <= k < |rest| && ExtractId(rest[k]) == FirstId(rest)
                 && forall j :: 0 <= j < k ==> ExtractId(rest[j]).None?;
        assert chunks[k + 1] == rest[k];
        forall j | 0 <= j < k + 1
          ensures ExtractId(chunks[j]).None?
        {
          if j > 0 {
            assert chunks[j] == rest[j - 1];
          }
        }
      } else {
        forall k | 0 <= k < |chunks|
          ensures ExtractId(chunks[k]).None?
        {
          if k > 0 {
            assert chunks[k] == rest[k - 1];
          }
        }
      }
    }
  }

  /** Once a prefix of the stream has yielded an id, later chunks never replace
      it; until then, the next chunk is searched. */
  lemma {:induction false} FirstIdAppend(chunks: seq<string>, c: string)
    ensures FirstId(chunks + [c]) == if FirstId(chunks).Some? then FirstId(chunks) else ExtractId(c)
  {
    if chunks != [] {
      assert (chunks + [c])[1..] == chunks[1..] + [c];
      FirstIdAppend(chunks[1..], c);
    }
  }

  /** Generalisation: an id found in a prefix is the id of every extension. */
  lemma {:induction false} FirstIdKept(a: seq<string>, b: seq<string>)
    requires FirstId(a).Some?
    ensures FirstId(a + b) == FirstId(a)
  {
    if b != [] {
      FirstIdKept(a, b[..|b| - 1]);
      assert a + b == (a + b[..|b| - 1]) + [b[|b| - 1]];
      FirstIdAppend(a + b[..|b| - 1], b[|b| - 1]);
    } else {
      assert a + b == a;
    }
  }

  /** Matching is per chunk: an id split across two chunks is not found,
      although the two chunks together hold one. The chunks are `"id":"r`
      and `1"`; neither is long enough to hold a match on its own. */
  lemma SplitIdNotFound()
    ensures FirstId([IdOpen + "r", "1\""]) == None
    ensures ExtractId(IdOpen + "r" + "1\"") == Some("r1")
  {
    var c1, c2 := IdOpen + "r", "1\"";
    forall i: nat, id ensures !Occurs(c1, i, id) {}
    ExtractIdNone(c1);
    forall i: nat, id ensures !Occurs(c2, i, id) {}
    ExtractIdNone(c2);
    assert [c1, c2][0] == c1 && [c1, c2][1..] == [c2] && [c2][0] == c2 && [c2][1..] == [];
    assert FirstId([c2]) == None;
    var s := c1 + c2;
    assert s[0 .. 9] == IdOpen + "r1" + [Quote];
    ExtractIdLeftmost(s, 0, "r1");
  }
}
