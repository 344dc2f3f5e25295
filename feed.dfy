/** One tick of the status poll: read the global feed from `GET /agent-output`,
    keep the entries of the active task, append their serialisations to the log
    and decide whether the last of them ends the task. */
module Feed {
  import opened JsValues

  /** The awaited part of a tick: `fetch` or `response.json()` rejected, or the
      parsed body. */
  datatype FeedFetch = FetchFailed | Fetched(body: JsValue)

  /** How far the tick body gets before filtering: it threw (and the `catch`
      swallowed it), found no `success && data`, or has the feed entries. */
  datatype FeedRead = Threw | NoData | Entries(items: seq<JsValue>)

  /** The tick's effect on the state: none, or the new log and whether polling stops. */
  datatype TickOutcome = Unchanged | Appended(log: string, stop: bool)

  /** Every entry can have its properties read: `filter` throws on a null entry. */
  predicate Readable(feed: seq<JsValue>)
  {
    forall i :: 0 <= i < |feed| ==> !IsNullish(feed[i])
  }

  /** The filter callback: `update.task_id === taskId || (update.message &&
      update.message.task_id === taskId)`. */
  predicate Matches(update: JsValue, taskId: JsValue)
    requires !IsNullish(update)
  {
    StrictEquals(Get(update, "task_id"), taskId)
    || (Truthy(Get(update, "message")) && StrictEquals(Get(Get(update, "message"), "task_id"), taskId))
  }

  /** `lastUpdate.type === "success" || lastUpdate.type === "error"` */
  predicate IsTerminal(update: JsValue)
    requires !IsNullish(update)
  {
    StrictEquals(Get(update, "type"), JsString("success"))
    || StrictEquals(Get(update, "type"), JsString("error"))
  }

  /** `feed.filter(...)`: the entries of the task, in feed order. */
  function Relevant(feed: seq<JsValue>, taskId: JsValue): (r: seq<JsValue>)
    requires Readable(feed)
    ensures |r| <= |feed|
    ensures forall i :: 0 <= i < |r| ==> !IsNullish(r[i]) && Matches(r[i], taskId)
  {
    if feed == [] then []
    else (if Matches(feed[0], taskId) then [feed[0]] else []) + Relevant(feed[1..], taskId)
  }

  /** The filter keeps exactly the matching entries of the feed. */
  lemma {:induction false} RelevantMembers(feed: seq<JsValue>, taskId: JsValue, x: JsValue)
    requires Readable(feed)
    ensures x in Relevant(feed, taskId) <==> x in feed && Matches(x, taskId)
  {
    if feed != [] {
      RelevantMembers(feed[1..], taskId, x);
      assert feed == [feed[0]] + feed[1..];
    }
  }

  lemma ReadableConcat(a: seq<JsValue>, b: seq<JsValue>)
    requires Readable(a) && Readable(b)
    ensures Readable(a + b)
  {
    forall i | 0 <= i < |a + b| ensures !IsNullish((a + b)[i]) {
      if i < |a| { assert (a + b)[i] == a[i]; } else { assert (a + b)[i] == b[i - |a|]; }
    }
  }

  /** Filtering distributes over concatenation: it keeps feed order. */
  lemma {:induction false} RelevantAppend(a: seq<JsValue>, b: seq<JsValue>, taskId: JsValue)
    requires Readable(a) && Readable(b)
    ensures Readable(a + b)
    ensures Relevant(a + b, taskId) == Relevant(a, taskId) + Relevant(b, taskId)
  {
    ReadableConcat(a, b);
    if a == [] {
      assert a + b == b;
    } else {
      var head := if Matches(a[0], taskId) then [a[0]] else [];
      assert (a + b)[0] == a[0];
      assert (a + b)[1..] == a[1..] + b;
      RelevantAppend(a[1..], b, taskId);
      calc {
        Relevant(a + b, taskId);
        head + Relevant(a[1..] + b, taskId);
        head + (Relevant(a[1..], taskId) + Relevant(b, taskId));
        (head + Relevant(a[1..], taskId)) + Relevant(b, taskId);
      }
    }
  }

  /** Filtering keeps duplicates: a matching entry occurs as often as in the
      feed, any other entry not at all. */
  lemma {:induction false} RelevantCount(feed: seq<JsValue>, taskId: JsValue, x: JsValue)
    requires Readable(feed)
    ensures multiset(Relevant(feed, taskId))[x]
         == if x in feed && Matches(x, taskId) then multiset(feed)[x] else 0
  {
    if feed != [] {
      RelevantCount(feed[1..], taskId, x);
      assert feed == [feed[0]] + feed[1..];
      RelevantMembers(feed[1..], taskId, x);
    }
  }

  /** The index of the last matching entry of the feed, searching from the
      end, or -1 when none matches. */
  function LastMatchIndex(feed: seq<JsValue>, taskId: JsValue): (r: int)
    requires Readable(feed)
    ensures -1 <= r < |feed|
    ensures r >= 0 ==> Matches(feed[r], taskId)
    ensures forall j :: r < j < |feed| ==> !Matches(feed[j], taskId)
  {
    if feed == [] then -1
    else if Matches(feed[|feed| - 1], taskId) then |feed| - 1
    else
      var r := LastMatchIndex(feed[..|feed| - 1], taskId);
      assert forall j :: r < j < |feed| - 1 ==> feed[j] == feed[..|feed| - 1][j];
      r
  }

  /** The last filtered entry is the last matching entry of the feed, so the
      terminal check looks at the task's latest entry and at nothing earlier. */
  lemma {:induction false} LastRelevantIsLastMatch(feed: seq<JsValue>, taskId: JsValue)
    requires Readable(feed)
    requires Relevant(feed, taskId) != []
    ensures LastMatchIndex(feed, taskId) >= 0
    ensures var r := Relevant(feed, taskId);
            r[|r| - 1] == feed[LastMatchIndex(feed, taskId)]
  {
    var n := |feed|;
    var init := feed[..n - 1];
    assert feed == init + [feed[n - 1]];
    RelevantAppend(init, [feed[n - 1]], taskId);
    assert [feed[n - 1]][1..] == [];
    if !Matches(feed[n - 1], taskId) {
      LastRelevantIsLastMatch(init, taskId);
    }
  }

  /** The tick body up to the filter. `data.success` throws on a nullish body;
      `data.data.filter` throws when `data.data` is truthy but not an array;
      the filter callback throws on a nullish entry. */
  function ReadFeed(fetch: FeedFetch): (r: FeedRead)
    ensures r.Entries? ==> Readable(r.items)
    ensures r.Entries? ==> fetch.Fetched? && fetch.body.JsObject?
                           && "success" in fetch.body.fields && Truthy(fetch.body.fields["success"])
                           && "data" in fetch.body.fields && fetch.body.fields["data"] == JsArray(r.items)
    ensures (fetch.Fetched? && fetch.body.JsObject?
             && "success" in fetch.body.fields && Truthy(fetch.body.fields["success"])
             && "data" in fetch.body.fields && fetch.body.fields["data"].JsArray?
             && Readable(fetch.body.fields["data"].items))
            ==> r == Entries(fetch.body.fields["data"].items)
  {
    match fetch
    case FetchFailed => Threw
    case Fetched(body) =>
      if IsNullish(body) then Threw
      else if !(Truthy(Get(body, "success")) && Truthy(Get(body, "data"))) then NoData
      else
        var data := Get(body, "data");
        if !data.JsArray? then Threw
        else if !Readable(data.items) then Threw
        else Entries(data.items)
  }

  /** The rejected fetch, the null body and the malformed feed are all
      swallowed; a body without a truthy `success` and `data` is skipped. */
  lemma ReadFeedFailures(fetch: FeedFetch)
    ensures fetch.FetchFailed? ==> ReadFeed(fetch) == Threw
    ensures fetch == Fetched(JsNull) ==> ReadFeed(fetch) == Threw
    ensures (fetch.Fetched? && fetch.body.JsObject?
             && "success" in fetch.body.fields && Truthy(fetch.body.fields["success"])
             && "data" in fetch.body.fields && Truthy(fetch.body.fields["data"])
             && (!fetch.body.fields["data"].JsArray? || !Readable(fetch.body.fields["data"].items)))
            ==> ReadFeed(fetch) == Threw
    ensures fetch.Fetched? && !IsNullish(fetch.body)
            && (!Truthy(Get(fetch.body, "success")) || !Truthy(Get(fetch.body, "data")))
            ==> ReadFeed(fetch) == NoData
  {
  }

  /** The entries of the active task in this tick, none if the body was skipped
      or threw. */
  function RelevantOf(fetch: FeedFetch, taskId: JsValue): (r: seq<JsValue>)
    ensures forall i :: 0 <= i < |r| ==> !IsNullish(r[i])
  {
    match ReadFeed(fetch)
    case Entries(items) => Relevant(items, taskId)
    case _ => []
  }

  /** Serialises each entry (`JSON.stringify(update, null, 2)`). */
  function Serialized(entries: seq<JsValue>, serialize: JsValue -> string): seq<string>
  {
    seq(|entries|, i requires 0 <= i < |entries| => serialize(entries[i]))
  }

  /** The serialisations joined by newlines. */
  function LogOf(entries: seq<JsValue>, serialize: JsValue -> string): string
  {
    JoinWith(Serialized(entries, serialize), "\n")
  }

  /** `prev ? `${prev}\n${block}` : block` */
  function AppendBlock(prev: string, block: string): string
  {
    if prev != "" then prev + "\n" + block else block
  }

  /** `JSON.stringify` never yields an empty string. */
  ghost predicate NonEmptySerializations(serialize: JsValue -> string)
  {
    forall v :: serialize(v) != ""
  }

  /** Appending the block of new entries to the log of earlier ones gives the log
      of all of them: the log is the newline-joined serialisations of every
      entry ever appended, in order. */
  lemma LogOfAppend(earlier: seq<JsValue>, later: seq<JsValue>, serialize: JsValue -> string)
    requires NonEmptySerializations(serialize)
    requires later != []
    ensures AppendBlock(LogOf(earlier, serialize), LogOf(later, serialize)) == LogOf(earlier + later, serialize)
  {
    var se, sl := Serialized(earlier, serialize), Serialized(later, serialize);
    assert Serialized(earlier + later, serialize) == se + sl;
    if earlier == [] {
      assert earlier + later == later;
    } else {
      JoinWithStartsWithFirst(se, "\n");
      assert se[0] == serialize(earlier[0]);
      JoinWithConcat(se, sl, "\n");
    }
  }

  /** The tick body: append the block of relevant entries, if any, and stop when
      the last of them is terminal. */
  function Reconcile(fetch: FeedFetch, taskId: JsValue, prevLog: string,
                     serialize: JsValue -> string): (r: TickOutcome)
    ensures r.Unchanged? <==> RelevantOf(fetch, taskId) == []
    ensures r.Appended? ==> prevLog <= r.log
    ensures r.Appended? ==> r.log == AppendBlock(prevLog, LogOf(RelevantOf(fetch, taskId), serialize))
    ensures r.Appended? ==> ReadFeed(fetch).Entries?
                            && var items := ReadFeed(fetch).items;
                               LastMatchIndex(items, taskId) >= 0
                               && (r.stop <==> IsTerminal(items[LastMatchIndex(items, taskId)]))
  {
    var rel := RelevantOf(fetch, taskId);
    if rel == [] then Unchanged
    else
      LastRelevantIsLastMatch(ReadFeed(fetch).items, taskId);
      Appended(AppendBlock(prevLog, LogOf(rel, serialize)), IsTerminal(rel[|rel| - 1]))
  }

  /** A terminal entry followed by a later non-terminal entry of the same task
      does not stop polling. */
  lemma EarlierTerminalDoesNotStop(fetch: FeedFetch, taskId: JsValue, prevLog: string,
                                   serialize: JsValue -> string, i: nat, j: nat)
    requires ReadFeed(fetch).Entries?
    requires var items := ReadFeed(fetch).items;
             i < j < |items| && Matches(items[i], taskId) && IsTerminal(items[i])
             && Matches(items[j], taskId) && !IsTerminal(items[j])
             && forall k :: j < k < |items| ==> !Matches(items[k], taskId)
    ensures Reconcile(fetch, taskId, prevLog, serialize).Appended?
    ensures !Reconcile(fetch, taskId, prevLog, serialize).stop
  {
    var items := ReadFeed(fetch).items;
    RelevantMembers(items, taskId, items[j]);
    assert LastMatchIndex(items, taskId) == j;
  }

  /** Re-polling a feed that has not changed appends the same block again with
      the same verdict: the log does not deduplicate. */
  lemma RepollAppendsAgain(fetch: FeedFetch, taskId: JsValue, prevLog: string,
                           serialize: JsValue -> string)
    requires NonEmptySerializations(serialize)
    requires Reconcile(fetch, taskId, prevLog, serialize).Appended?
    ensures var first := Reconcile(fetch, taskId, prevLog, serialize);
            var second := Reconcile(fetch, taskId, first.log, serialize);
            && second.Appended? && second.stop == first.stop
            && second.log == first.log + "\n" + LogOf(RelevantOf(fetch, taskId), serialize)
  {
    var rel := RelevantOf(fetch, taskId);
    var s := Serialized(rel, serialize);
    JoinWithStartsWithFirst(s, "\n");
    assert s[0] == serialize(rel[0]);
  }

  /** An entry that carries the task id only inside its `message` object is
      still one of the task's entries. */
  lemma NestedTaskIdMatches(taskId: JsValue, fields: map<string, JsValue>)
    requires !taskId.JsArray? && !taskId.JsObject?
    requires "message" in fields && fields["message"].JsObject?
    requires "task_id" in fields["message"].fields && fields["message"].fields["task_id"] == taskId
    ensures Matches(JsObject(fields), taskId)
  {
  }

  /** Task t100, first tick: the feed holds its progress entry and another
      task's success entry; the log gets the progress entry and polling goes on. */
  lemma FirstTickProgress(serialize: JsValue -> string, prevLog: string)
    ensures var id := JsString("t100");
            var progress := JsObject(map["task_id" := id, "type" := JsString("progress")]);
            var other := JsObject(map["task_id" := JsString("t7"), "type" := JsString("success")]);
            var feed := Fetched(JsObject(map["success" := JsBool(true), "data" := JsArray([progress, other])]));
            Reconcile(feed, id, prevLog, serialize) == Appended(AppendBlock(prevLog, serialize(progress)), false)
  {
    var id := JsString("t100");
    var progress := JsObject(map["task_id" := id, "type" := JsString("progress")]);
    var other := JsObject(map["task_id" := JsString("t7"), "type" := JsString("success")]);
    var feed := Fetched(JsObject(map["success" := JsBool(true), "data" := JsArray([progress, other])]));
    assert ReadFeed(feed) == Entries([progress, other]);
    assert Matches(progress, id) && !Matches(other, id);
    assert Relevant([progress, other], id) == [progress] by {
      assert [progress, other][1..] == [other];
      assert [other][1..] == [];
    }
    assert Serialized([progress], serialize) == [serialize(progress)];
  }

  /** Task t100, second tick: the feed holds its success entry, which is logged
      and stops polling. */
  lemma SecondTickSuccess(serialize: JsValue -> string, prevLog: string)
    ensures var id := JsString("t100");
            var done := JsObject(map["task_id" := id, "type" := JsString("success")]);
            var feed := Fetched(JsObject(map["success" := JsBool(true), "data" := JsArray([done])]));
            Reconcile(feed, id, prevLog, serialize) == Appended(AppendBlock(prevLog, serialize(done)), true)
  {
    var id := JsString("t100");
    var done := JsObject(map["task_id" := id, "type" := JsString("success")]);
    var feed := Fetched(JsObject(map["success" := JsBool(true), "data" := JsArray([done])]));
    assert ReadFeed(feed) == Entries([done]);
    assert Matches(done, id) && IsTerminal(done);
    assert Relevant([done], id) == [done] by {
      assert [done][1..] == [];
    }
    assert Serialized([done], serialize) == [serialize(done)];
  }
}
