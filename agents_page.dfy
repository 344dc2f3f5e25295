/** The state of the agents page and the handlers that change it step by step:
    the settings edits, the two halves of `handleExecuteCrew` around its
    `await`, the polling effect on `[isPolling, taskId]` with its cleanup, and
    one tick of the interval it starts. */
module Page {
  import opened JsValues
  import opened CrewSettings
  import opened Submission
  import opened Feed

  class AgentsPage {
    // Component state (the `useState` hooks this model covers).
    var settings: Settings
    var selectedClient: Option<Client>
    var crewType: string
    var content: string
    var specialInstructions: string
    var isProcessing: bool
    var error: Option<string>
    var log: string
    var isPolling: bool
    var taskId: JsValue

    // Host state: whether the component is mounted, the interval handle the
    // current run of the polling effect holds (`pollInterval`), the intervals
    // registered with the host and not yet cleared, and the next handle the
    // host will hand out (handles are positive, hence truthy).
    var mounted: bool
    var timer: Option<nat>
    var liveTimers: set<nat>
    var nextHandle: nat

    /** `JSON.stringify(update, null, 2)` */
    const serialize: JsValue -> string

    /** Every entry appended to the log so far, in order. */
    ghost var delivered: seq<JsValue>

    /** The only interval the host runs is the one the current effect holds. */
    ghost predicate TimersConsistent()
      reads this
    {
      && nextHandle > 0
      && (forall h :: h in liveTimers ==> 0 < h < nextHandle)
      && liveTimers == (if timer.Some? then {timer.value} else {})
    }

    /** At most one interval is live, and one is live exactly while the page is
        mounted, `isPolling` is true and `taskId` is truthy; the log is the
        newline-joined serialisations of every entry delivered. */
    ghost predicate Valid()
      reads this
    {
      && NonEmptySerializations(serialize)
      && TimersConsistent()
      && (timer.Some? <==> mounted && isPolling && Truthy(taskId))
      && log == LogOf(delivered, serialize)
    }

    /** Mounting: the initial state, after the polling effect's first run (which
        starts nothing, since `isPolling` is false). */
    constructor (serialize: JsValue -> string)
      requires NonEmptySerializations(serialize)
      ensures Valid() && mounted
      ensures settings == InitialSettings() && selectedClient.None?
      ensures crewType == Autoblogging && content == "" && specialInstructions == ""
      ensures !isProcessing && error.None? && log == "" && delivered == []
      ensures !isPolling && taskId == JsNull
      ensures timer.None? && liveTimers == {}
      ensures this.serialize == serialize
    {
      settings := InitialSettings();
      selectedClient := None;
      crewType := Autoblogging;
      content := "";
      specialInstructions := "";
      isProcessing := false;
      error := None;
      log := "";
      isPolling := false;
      taskId := JsNull;
      mounted := true;
      timer := None;
      liveTimers := {};
      nextHandle := 1;
      this.serialize := serialize;
      delivered := [];
    }

    /** The polling effect run after a render in which `isPolling` or `taskId`
        changed: the previous run's cleanup clears its interval, then a new
        interval is started only if `isPolling && taskId`. */
    method PollingEffect()
      requires mounted && TimersConsistent()
      modifies this`timer, this`liveTimers, this`nextHandle
      ensures TimersConsistent()
      ensures timer.Some? <==> isPolling && Truthy(taskId)
      ensures old(timer).Some? ==> old(timer).value !in liveTimers
      ensures timer.Some? ==> timer.value !in old(liveTimers)
    {
      if timer.Some? {
        liveTimers := liveTimers - {timer.value};
        timer := None;
      }
      if isPolling && Truthy(taskId) {
        timer := Some(nextHandle);
        liveTimers := liveTimers + {nextHandle};
        nextHandle := nextHandle + 1;
      }
    }

    /** Unmounting runs the last cleanup: no interval outlives the page. */
    method Unmount()
      requires Valid() && mounted
      modifies this`mounted, this`timer, this`liveTimers
      ensures Valid() && !mounted
      ensures timer.None? && liveTimers == {}
    {
      if timer.Some? {
        liveTimers := liveTimers - {timer.value};
        timer := None;
      }
      mounted := false;
    }

    /** `handleContentChange` */
    method SetContent(text: string)
      requires Valid()
      modifies this`content
      ensures Valid() && content == text
    {
      content := text;
    }

    /** `handleCrewSettingChange(crew, field, value)` */
    method EditCrewSetting(crew: string, field: string, value: JsValue)
      requires Valid()
      modifies this`settings
      ensures Valid()
      ensures settings == EditSetting(old(settings), crew, field, value)
    {
      settings := EditSetting(settings, crew, field, value);
    }

    /** `handleClientSelect(clientId)`: the selection becomes the client found
        (undefined if none) and a found client refreshes the autoblogging
        settings. */
    method SelectClient(clients: seq<Client>, clientId: JsValue)
      requires Valid()
      modifies this`selectedClient, this`settings
      ensures Valid()
      ensures selectedClient == FindClient(clients, clientId)
      ensures settings == SelectClientSettings(old(settings), clients, clientId)
      ensures selectedClient.None? ==> settings == old(settings)
    {
      var client := FindClient(clients, clientId);
      selectedClient := client;
      if client.Some? {
        settings := ApplyClient(settings, client.value);
      }
    }

    /** The part of `handleExecuteCrew` before its first `await`: mark the page
        busy, clear the error and build the request. The button only fires
        while it is enabled. */
    method BeginExecute() returns (payload: Payload)
      requires Valid() && mounted
      requires SubmitEnabled(isProcessing, selectedClient, content)
      modifies this`isProcessing, this`error
      ensures Valid()
      ensures isProcessing && error.None?
      ensures !SubmitEnabled(isProcessing, selectedClient, content)
      ensures payload == BuildPayload(crewType, content, selectedClient, settings, specialInstructions)
      ensures payload.settings == SettingsOf(settings, crewType)
      ensures payload.content != "" && payload.clientId == Field(selectedClient.value, "id")
    {
      isProcessing := true;
      error := None;
      payload := BuildPayload(crewType, content, selectedClient, settings, specialInstructions);
    }

    /** The rest of `handleExecuteCrew` once the reply is in: an accepted reply
        sets `taskId` and turns polling on, anything else shows its message and
        leaves the polling state alone; `finally` clears the busy flag. The
        polling effect re-runs if `isPolling` or `taskId` changed. A page that
        was unmounted meanwhile drops these updates. */
    method FinishExecute(resp: SubmitResponse)
      requires Valid() && isProcessing
      modifies this`isProcessing, this`error, this`taskId, this`isPolling
      modifies this`timer, this`liveTimers, this`nextHandle
      ensures Valid()
      ensures !old(mounted) ==> isProcessing && error == old(error) && taskId == old(taskId)
                                && isPolling == old(isPolling) && timer == old(timer)
      ensures old(mounted) ==> !isProcessing
      ensures old(mounted) && ExecuteOutcome(resp).Started? ==>
                taskId == ExecuteOutcome(resp).taskId && isPolling && error == old(error)
      ensures old(mounted) && ExecuteOutcome(resp).Failed? ==>
                error == Some(ExecuteOutcome(resp).message)
                && taskId == old(taskId) && isPolling == old(isPolling) && timer == old(timer)
      ensures old(mounted) && old(isPolling) == isPolling && StrictEquals(taskId, old(taskId)) ==>
                timer == old(timer) && liveTimers == old(liveTimers)
      ensures old(timer).Some? && timer != old(timer) ==> old(timer).value !in liveTimers
      ensures old(mounted) && ExecuteOutcome(resp).Started?
              && (!old(isPolling) || !StrictEquals(ExecuteOutcome(resp).taskId, old(taskId))) ==>
                (old(timer).Some? ==> old(timer).value !in liveTimers)
                && (timer.Some? ==> timer.value !in old(liveTimers))
    {
      if !mounted {
        return;
      }
      var outcome := ExecuteOutcome(resp);
      match outcome {
        case Started(id) =>
          var depsChanged := !isPolling || !StrictEquals(id, taskId);
          taskId := id;
          isPolling := true;
          if depsChanged {
            PollingEffect();
          }
        case Failed(message) =>
          error := Some(message);
      }
      isProcessing := false;
    }

    /** One firing of the interval: reconcile the fetched feed into the log; if
        the task's last entry is terminal, turn polling off, whose effect
        cleanup clears the interval. A failed or skipped read changes nothing. */
    method Tick(fetch: FeedFetch)
      requires Valid() && timer.Some?
      modifies this`log, this`isPolling, this`timer, this`liveTimers, this`nextHandle, this`delivered
      ensures Valid()
      ensures delivered == old(delivered) + RelevantOf(fetch, taskId)
      ensures var r := Reconcile(fetch, taskId, old(log), serialize);
              && (r.Unchanged? ==> log == old(log) && isPolling && timer == old(timer)
                                   && liveTimers == old(liveTimers))
              && (r.Appended? ==> log == r.log && isPolling == !r.stop)
      ensures old(log) <= log
      ensures isPolling ==> timer == old(timer) && liveTimers == old(liveTimers)
      ensures !isPolling ==> timer.None? && liveTimers == {}
    {
      var r := Reconcile(fetch, taskId, log, serialize);
      if r.Appended? {
        ghost var relevant := RelevantOf(fetch, taskId);
        LogOfAppend(delivered, relevant, serialize);
        log := r.log;
        delivered := delivered + relevant;
        if r.stop {
          isPolling := false;
          PollingEffect();
        }
      }
    }
  }
}
