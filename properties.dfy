/** What the presenter promises, proved about the transition functions of
    PresenterSpec: the order of the fallback search, the bookkeeping of a
    completion, the classification of a found key, retry, the import and
    promote callbacks, the permission gate, and that no sequence of calls
    ever removes a log entry. */
module PresenterProperties {
  import opened TokenTypes
  import opened PresenterSpec

  function Min(a: int, b: int): int
  {
    if a <= b then a else b
  }

  /** The loader ids of a list of search sources. */
  function Ids(u: seq<Source>): (ids: seq<int>)
    ensures |ids| == |u|
  {
    if u == [] then [] else [LoaderIdOf(u[0])] + Ids(u[1..])
  }

  lemma DispatchesOfSearchDispatch(src: Source)
    ensures Dispatches(SearchDispatch(src)) == [LoaderIdOf(src)]
  {
    var d := SearchDispatch(src);
    assert Dispatches(d[1..][1..]) == [];
    assert Dispatches(d[1..]) == [LoaderIdOf(src)];
  }

  /** Events that are not loader restarts leave the dispatch list alone. */
  lemma DispatchesOfViewCalls(events: seq<Event>, more: seq<Event>)
    requires forall i :: 0 <= i < |more| ==> !more[i].RestartLoader?
    ensures Dispatches(events + more) == Dispatches(events)
  {
    DispatchesAppend(events, more);
  }

  /** Search order: continueSearch restarts exactly one loader, that of the
      highest-priority source not yet searched, after adding its status line;
      with every source searched it restarts none and offers retry or a
      file. */
  lemma SearchOrderHolds(s: PresenterState)
    requires s.hasView
    ensures var r := ContinueSearch(s);
      && r == s.(events := r.events)
      && (AllSearched(s) ==>
            r.events == s.events + [ShowActionRetryOrFromFile]
            && Dispatches(r.events) == Dispatches(s.events))
      && (!AllSearched(s) ==>
            var src := Unsearched(s)[0];
            && !Searched(s, src)
            && (forall other :: !Searched(s, other) ==> LoaderIdOf(src) <= LoaderIdOf(other))
            && r.events == s.events + [StatusLineAdd(SearchLineOf(src)), RestartLoader(LoaderIdOf(src), NoArgs)]
            && Dispatches(r.events) == Dispatches(s.events) + [LoaderIdOf(src)])
  {
    var r := ContinueSearch(s);
    if AllSearched(s) {
      DispatchesOfViewCalls(s.events, [ShowActionRetryOrFromFile]);
    } else {
      var u := Unsearched(s);
      var src := u[0];
      UnsearchedIsOrdered(s);
      forall other | !Searched(s, other)
        ensures LoaderIdOf(src) <= LoaderIdOf(other)
      {
        var j :| 0 <= j < |u| && u[j] == other;
        assert j == 0 || LoaderIdOf(u[0]) < LoaderIdOf(u[j]);
      }
      DispatchesAppend(s.events, SearchDispatch(src));
      DispatchesOfSearchDispatch(src);
    }
  }

  /** Start-up: onActivityCreated searches only when some source is not yet
      searched; otherwise it changes nothing and calls nothing. */
  lemma StartUpSearch(s: PresenterState)
    requires s.hasView || AllSearched(s)
    ensures AllSearched(s) ==> OnActivityCreated(s) == s
    ensures !AllSearched(s) ==>
      Dispatches(OnActivityCreated(s).events) == Dispatches(s.events) + [LoaderIdOf(Unsearched(s)[0])]
  {
    if !AllSearched(s) {
      SearchOrderHolds(s);
    }
  }

  /** Completion bookkeeping: with a view, a completion of a known loader
      marks exactly that loader's source searched (the content-URI loader
      marks none) and appends exactly its operation result to the log.
      Without a view nothing changes; an unknown loader id throws before
      anything changes. */
  lemma CompletionBookkeeping(s: PresenterState, loaderId: int, data: KeyRetrievalResult)
    ensures !s.hasView ==> OnLoadFinished(s, loaderId, data) == Step(s, Returned)
    ensures s.hasView && !KnownLoader(loaderId) ==>
      OnLoadFinished(s, loaderId, data) == Step(s, IllegalArgumentException(UnknownLoaderMessage))
    ensures s.hasView && KnownLoader(loaderId) ==>
      var r := OnLoadFinished(s, loaderId, data).next;
      && (forall src :: Searched(r, src) == (Searched(s, src) || loaderId == LoaderIdOf(src)))
      && r.log == s.log + [data.operationResult]
  {
  }

  /** Failure fallback, one step: a failed completion of a search loader
      marks it searched, logs it, shows the error line and moves the search
      on to the next source. */
  lemma FailedCompletionContinues(s: PresenterState, op: OperationResult)
    requires s.hasView && !AllSearched(s)
    ensures var src := Unsearched(s)[0];
      var marked := MarkSearched(s, LoaderIdOf(src));
      var s' := marked.(log := s.log + [op], events := s.events + [StatusLineError]);
      && OnLoadFinished(s, LoaderIdOf(src), Failed(op)).next == ContinueSearch(s')
      && Unsearched(s') == Unsearched(s)[1..]
  {
  }

  /** A run of failures: each completion fails, and each is the completion of
      the loader the search dispatched last. */
  function FailAll(s: PresenterState, ops: seq<OperationResult>): (r: PresenterState)
    requires s.hasView
    ensures r.hasView
    decreases |ops|
  {
    if ops == [] || AllSearched(s) then s
    else FailAll(OnLoadFinished(s, LoaderIdOf(Unsearched(s)[0]), Failed(ops[0])).next, ops[1..])
  }

  /** What a run of |ops| failures after starting the search leaves behind,
      from state s: the unsearched sources were queried in priority order,
      never a searched one and never one twice; the log gained one entry per
      failure; once every source has failed, retry-or-from-file is the last
      call made; the key fields and the pending file are untouched. */
  ghost predicate FallbackPost(s: PresenterState, ops: seq<OperationResult>, r: PresenterState)
  {
    && RunFacts(s.log, Unsearched(s), Dispatches(s.events), ops,
                r.log, Unsearched(r), Dispatches(r.events), EndsOnRetry(r))
    && r.importKeyData == s.importKeyData && r.masterKeyId == s.masterKeyId
    && r.selectedContentUri == s.selectedContentUri
  }

  predicate EndsOnRetry(r: PresenterState)
  {
    |r.events| > 0 && r.events[|r.events| - 1] == ShowActionRetryOrFromFile
  }

  /** FallbackPost on the parts of the state it speaks about: the log, the
      unsearched sources and the dispatched loaders before (log, u, d) and
      after (logR, uR, dR) the run. */
  ghost predicate RunFacts(log: seq<OperationResult>, u: seq<Source>, d: seq<int>, ops: seq<OperationResult>,
                           logR: seq<OperationResult>, uR: seq<Source>, dR: seq<int>, endsOnRetry: bool)
  {
    var k := Min(|ops|, |u|);
    && logR == log + ops[..k]
    && uR == u[k..]
    && dR == d + Ids(u[..Min(|ops| + 1, |u|)])
    && (|ops| >= |u| ==> endsOnRetry)
  }

  lemma PrefixStep<T>(a: seq<T>, ops: seq<T>, k: nat)
    requires 1 <= k <= |ops|
    ensures (a + [ops[0]]) + ops[1..][..k - 1] == a + ops[..k]
  {
    assert [ops[0]] + ops[1..][..k - 1] == ops[..k];
  }

  lemma SuffixStep<T>(u: seq<T>, k: nat)
    requires 1 <= k <= |u|
    ensures u[1..][k - 1..] == u[k..]
  {
  }

  lemma {:induction false} IdsStep(u: seq<Source>, m: nat)
    requires 1 <= m <= |u|
    ensures Ids(u[..m]) == [LoaderIdOf(u[0])] + Ids(u[1..][..m - 1])
  {
    assert u[..m][1..] == u[1..][..m - 1];
  }

  /** The induction step of FailureFallback: one failure leaves the first
      unsearched source searched, the failure logged and the next loader
      dispatched. */
  lemma FallbackStep(log: seq<OperationResult>, u: seq<Source>, d: seq<int>, ops: seq<OperationResult>,
                     logR: seq<OperationResult>, uR: seq<Source>, dR: seq<int>, endsOnRetry: bool)
    requires u != [] && ops != []
    requires RunFacts(log + [ops[0]], u[1..], d + [LoaderIdOf(u[0])], ops[1..], logR, uR, dR, endsOnRetry)
    ensures RunFacts(log, u, d, ops, logR, uR, dR, endsOnRetry)
  {
    var k := Min(|ops|, |u|);
    var m := Min(|ops| + 1, |u|);
    PrefixStep(log, ops, k);
    IdsStep(u, m);
    SuffixStep(u, k);
  }

  /** Failure fallback: see FallbackPost. */
  lemma {:induction false} FailureFallback(s: PresenterState, ops: seq<OperationResult>)
    requires s.hasView
    ensures FallbackPost(s, ops, FailAll(ContinueSearch(s), ops))
    decreases |ops|
  {
    var u := Unsearched(s);
    var s1 := ContinueSearch(s);
    SearchOrderHolds(s);
    assert Unsearched(s1) == u;
    if u == [] {
      assert FailAll(s1, ops) == s1;
    } else if ops == [] {
      assert FailAll(s1, ops) == s1;
      assert Ids(u[..1]) == [LoaderIdOf(u[0])];
    } else {
      var marked := MarkSearched(s1, LoaderIdOf(u[0]));
      var s' := marked.(log := s1.log + [ops[0]], events := s1.events + [StatusLineError]);
      var r := FailAll(ContinueSearch(s'), ops[1..]);
      assert FailAll(s1, ops) == r by {
        FailedCompletionContinues(s1, ops[0]);
      }
      assert Unsearched(s') == u[1..] by {
        FailedCompletionContinues(s1, ops[0]);
      }
      assert Dispatches(s'.events) == Dispatches(s.events) + [LoaderIdOf(u[0])] by {
        DispatchesOfViewCalls(s1.events, [StatusLineError]);
      }
      FailureFallback(s', ops[1..]);
      FallbackStep(s.log, u, Dispatches(s.events), ops, r.log, Unsearched(r), Dispatches(r.events), EndsOnRetry(r));
    }
  }

  lemma {:induction false} IdsAt(v: seq<Source>, i: nat)
    requires i < |v|
    ensures Ids(v)[i] == LoaderIdOf(v[i])
  {
    if i > 0 {
      IdsAt(v[1..], i - 1);
    }
  }

  /** Appending the ids of a prefix of a priority-ordered list of sources
      appends only ids of those sources, in strictly increasing order. */
  lemma OrderedIdsAppended(u: seq<Source>, m: nat, before: seq<int>, after: seq<int>)
    requires m <= |u|
    requires forall i, j :: 0 <= i < j < |u| ==> LoaderIdOf(u[i]) < LoaderIdOf(u[j])
    requires after == before + Ids(u[..m])
    ensures before <= after
    ensures forall src :: src !in u ==> LoaderIdOf(src) !in after[|before|..]
    ensures forall i, j :: |before| <= i < j < |after| ==> after[i] < after[j]
  {
    var v := u[..m];
    assert after[|before|..] == Ids(v);
    forall i | 0 <= i < |v| ensures Ids(v)[i] == LoaderIdOf(u[i]) {
      IdsAt(v, i);
    }
    forall i, j | |before| <= i < j < |after| ensures after[i] < after[j] {
      assert after[i] == Ids(v)[i - |before|];
      assert after[j] == Ids(v)[j - |before|];
    }
  }

  /** Failure fallback, no repeats: the loaders a run of failures restarts
      belong to sources that were not searched when it began, each at most
      once, in strictly increasing priority order. */
  lemma FallbackNeverRepeats(s: PresenterState, ops: seq<OperationResult>)
    requires s.hasView
    ensures var before := Dispatches(s.events);
      var after := Dispatches(FailAll(ContinueSearch(s), ops).events);
      && before <= after
      && (forall src :: Searched(s, src) ==> LoaderIdOf(src) !in after[|before|..])
      && (forall i, j :: |before| <= i < j < |after| ==> after[i] < after[j])
  {
    var u := Unsearched(s);
    FailureFallback(s, ops);
    UnsearchedIsOrdered(s);
    OrderedIdsAppended(u, Min(|ops| + 1, |u|), Dispatches(s.events),
                       Dispatches(FailAll(ContinueSearch(s), ops).events));
  }

  /** Scenario: with nothing searched, start-up and three failures query
      LOCAL, URI and KEYSERVER in that order, log three entries and end on
      retry-or-from-file. */
  lemma ThreeFailuresExhaustSearch(s: PresenterState, a: OperationResult, b: OperationResult, c: OperationResult)
    requires s.hasView && !s.searchedLocally && !s.searchedAtUri && !s.searchedKeyservers
    ensures var r := FailAll(OnActivityCreated(s), [a, b, c]);
      && r.log == s.log + [a, b, c]
      && Dispatches(r.events) == Dispatches(s.events) + [LoaderLocal, LoaderUri, LoaderKeyserver]
      && AllSearched(r)
      && r.events[|r.events| - 1] == ShowActionRetryOrFromFile
  {
    var u := [Local, AtUri, Keyserver];
    assert Unsearched(s) == u;
    assert OnActivityCreated(s) == ContinueSearch(s);
    FailureFallback(s, [a, b, c]);
    assert [a, b, c][..3] == [a, b, c];
    assert Ids(u[1..][1..][1..]) == [];
    assert Ids(u[1..][1..]) == [LoaderKeyserver];
    assert Ids(u[1..]) == [LoaderUri, LoaderKeyserver];
    assert Ids(u[..3]) == [LoaderLocal, LoaderUri, LoaderKeyserver] by {
      assert u[..3] == u;
    }
  }

  /** Success classification: a successful completion first marks the line
      ok; key data with a master key id offers an import (and never a
      promotion), a master key id alone requests promotion with the token's
      application id (and never an import offer), and a result with no master
      key id throws. */
  lemma SuccessClassification(s: PresenterState, loaderId: int, data: KeyRetrievalResult)
    requires s.hasView && KnownLoader(loaderId) && data.isSuccess
    ensures var r := OnLoadFinished(s, loaderId, data);
      && r.next.log == s.log + [data.operationResult]
      && (data.keyData.Some? && data.masterKeyId.Some? ==>
            && r.outcome == Returned
            && r.next.importKeyData == data.keyData && r.next.masterKeyId == data.masterKeyId
            && r.next.events == s.events + [StatusLineOk, ShowActionImport])
      && (data.keyData.None? && data.masterKeyId.Some? ==>
            && r.outcome == Returned
            && r.next.importKeyData == s.importKeyData && r.next.masterKeyId == data.masterKeyId
            && r.next.events == s.events + [StatusLineOk, StatusLineAdd(TokenCheck),
                                            OperationPromote(data.masterKeyId, s.tokenAid)])
      && (data.masterKeyId.None? ==>
            && r.outcome == IllegalArgumentException(NoKeyMessage)
            && r.next.events == s.events + [StatusLineOk])
      && (ShowActionImport in r.next.events[|s.events|..] <==> data.keyData.Some? && data.masterKeyId.Some?)
      && ((exists e :: e in r.next.events[|s.events|..] && e.OperationPromote?)
            <==> data.keyData.None? && data.masterKeyId.Some?)
  {
    var r := OnLoadFinished(s, loaderId, data);
    var added := r.next.events[|s.events|..];
    if data.keyData.Some? && data.masterKeyId.Some? {
      assert added == [StatusLineOk, ShowActionImport];
    } else if data.masterKeyId.Some? {
      assert added == [StatusLineOk, StatusLineAdd(TokenCheck), OperationPromote(data.masterKeyId, s.tokenAid)];
      assert added[2].OperationPromote?;
    } else {
      assert added == [StatusLineOk];
    }
  }

  /** Retry: all three flags are cleared, the action hidden, the status lines
      reset, and LOCAL is the next loader, whatever the earlier progress. */
  lemma RetryRestartsAtLocal(s: PresenterState)
    requires s.hasView
    ensures var r := OnClickRetry(s);
      && !r.searchedLocally && !r.searchedAtUri && !r.searchedKeyservers
      && r.log == s.log && r.importKeyData == s.importKeyData && r.masterKeyId == s.masterKeyId
      && r.events == s.events + [HideAction, ResetStatusLines, StatusLineAdd(SearchLocal),
                                 RestartLoader(LoaderLocal, NoArgs)]
      && Dispatches(r.events) == Dispatches(s.events) + [LoaderLocal]
  {
    var r := OnClickRetry(s);
    DispatchesOfViewCalls(s.events, [HideAction, ResetStatusLines, StatusLineAdd(SearchLocal)]);
    DispatchesAppend(s.events + [HideAction, ResetStatusLines, StatusLineAdd(SearchLocal)],
                     [RestartLoader(LoaderLocal, NoArgs)]);
    assert r.events == s.events + [HideAction, ResetStatusLines, StatusLineAdd(SearchLocal)]
                                + [RestartLoader(LoaderLocal, NoArgs)];
  }

  /** Import and promote outcomes: each appends exactly its result to the
      log and changes no other field. An import success requests promotion of
      the stored master key id with the token's application id; a promote
      success offers to view the key; the two errors only mark the line
      failed and restart no loader. */
  lemma ImportPromoteOutcomes(s: PresenterState, result: OperationResult)
    requires s.hasView
    ensures var r := OnImportSuccess(s, result);
      r == s.(log := s.log + [result], events := r.events)
      && r.events == s.events + [StatusLineOk, StatusLineAdd(TokenPromote), OperationPromote(s.masterKeyId, s.tokenAid)]
    ensures var r := OnImportError(s, result);
      r == s.(log := s.log + [result], events := s.events + [StatusLineError])
      && Dispatches(r.events) == Dispatches(s.events)
    ensures var r := OnPromoteSuccess(s, result);
      r == s.(log := s.log + [result], events := s.events + [StatusLineOk, ShowActionViewKey])
    ensures var r := OnPromoteError(s, result);
      r == s.(log := s.log + [result], events := s.events + [StatusLineError])
      && Dispatches(r.events) == Dispatches(s.events)
  {
    DispatchesOfViewCalls(s.events, [StatusLineError]);
  }

  /** Permission gate: without read permission a selected file is held as the
      one pending reference and permission is requested, with no loader
      restarted; a grant clears the slot and loads the held file after
      resetting the status lines; a denial only clears the slot. None of the
      three touches the search flags or the log. */
  lemma PermissionGate(s: PresenterState, contentUri: Uri)
    requires s.hasView
    ensures var r := OnFileSelected(s, contentUri, false);
      && r == s.(selectedContentUri := Some(contentUri), events := r.events)
      && r.events == s.events + [RequestStoragePermission]
      && Dispatches(r.events) == Dispatches(s.events)
    ensures var r := OnFileSelected(s, contentUri, true);
      && r == s.(events := r.events)
      && r.events == s.events + [ResetStatusLines, StatusLineAdd(SearchContentUri),
                                 RestartLoader(LoaderContentUri, ContentUriArg(Some(contentUri)))]
    ensures var r := OnStoragePermissionGranted(s);
      && r == s.(selectedContentUri := None, events := r.events)
      && r.events == s.events + [ResetStatusLines, StatusLineAdd(SearchContentUri),
                                 RestartLoader(LoaderContentUri, ContentUriArg(s.selectedContentUri))]
      && Dispatches(r.events) == Dispatches(s.events) + [LoaderContentUri]
    ensures OnStoragePermissionDenied(s) == s.(selectedContentUri := None)
  {
    DispatchesOfViewCalls(s.events, [RequestStoragePermission]);
  }

  /** The remaining user actions only call the view and change no field:
      view-key hands over the stored master key id, view-log the log as it
      stands, reset asks for confirmation before the token reset is started,
      and load-file opens the file dialog. */
  lemma ActionRequests(s: PresenterState)
    requires s.hasView
    ensures OnClickViewKey(s) == s.(events := s.events + [FinishAndShowKey(s.masterKeyId)])
    ensures OnClickViewLog(s) == s.(events := s.events + [ShowDisplayLogActivity(s.log)])
    ensures OnClickResetToken(s) == s.(events := s.events + [ShowConfirmResetDialog])
    ensures OnClickConfirmReset(s) == s.(events := s.events + [OperationResetSecurityToken])
    ensures OnClickLoadFile(s) == s.(events := s.events + [ShowFileSelectDialog])
    ensures var actions := [OnClickViewKey(s), OnClickViewLog(s), OnClickResetToken(s),
                            OnClickConfirmReset(s), OnClickLoadFile(s)];
      forall i :: 0 <= i < |actions| ==> actions[i].log == s.log && Dispatches(actions[i].events) == Dispatches(s.events)
  {
    DispatchesOfViewCalls(s.events, [FinishAndShowKey(s.masterKeyId)]);
    DispatchesOfViewCalls(s.events, [ShowDisplayLogActivity(s.log)]);
    DispatchesOfViewCalls(s.events, [ShowConfirmResetDialog]);
    DispatchesOfViewCalls(s.events, [OperationResetSecurityToken]);
    DispatchesOfViewCalls(s.events, [ShowFileSelectDialog]);
  }

  /** Scenario: a file picked without permission, then the permission
      denied, leaves no pending reference, restarts no loader and keeps the
      search state. */
  lemma FileDeniedLoadsNothing(s: PresenterState, contentUri: Uri)
    requires s.hasView
    ensures var r := OnStoragePermissionDenied(OnFileSelected(s, contentUri, false));
      && r.selectedContentUri == None
      && Dispatches(r.events) == Dispatches(s.events)
      && r == s.(selectedContentUri := None, events := r.events)
  {
    PermissionGate(s, contentUri);
  }

  /** Scenario: LOCAL fails, then the URI lookup finds key data and a master
      key id. The import is offered, the log has both results, and the
      keyserver is never queried. */
  lemma UriFindsNewKey(s: PresenterState, a: OperationResult, b: OperationResult, key: KeyData, id: int64)
    requires s.hasView && !s.searchedLocally && !s.searchedAtUri && !s.searchedKeyservers
    ensures var s1 := OnActivityCreated(s);
      var s2 := OnLoadFinished(s1, LoaderLocal, Failed(a)).next;
      var r := OnLoadFinished(s2, LoaderUri, KeyRetrievalResult(b, true, Some(key), Some(id)));
      && r.outcome == Returned
      && r.next.log == s.log + [a, b]
      && r.next.importKeyData == Some(key) && r.next.masterKeyId == Some(id)
      && r.next.events[|r.next.events| - 1] == ShowActionImport
      && Dispatches(r.next.events) == Dispatches(s.events) + [LoaderLocal, LoaderUri]
      && !r.next.searchedKeyservers
  {
    var s1 := OnActivityCreated(s);
    SearchOrderHolds(s);
    FailedCompletionContinues(s1, a);
    var marked := MarkSearched(s1, LoaderLocal);
    var s' := marked.(log := s1.log + [a], events := s1.events + [StatusLineError]);
    SearchOrderHolds(s');
    DispatchesOfViewCalls(s1.events, [StatusLineError]);
    var s2 := OnLoadFinished(s1, LoaderLocal, Failed(a)).next;
    var data := KeyRetrievalResult(b, true, Some(key), Some(id));
    SuccessClassification(s2, LoaderUri, data);
    DispatchesOfViewCalls(s2.events, [StatusLineOk, ShowActionImport]);
  }

  /** Scenario: after an import is offered, import then promote succeed; the
      view-key action ends the run and both results follow the search
      result in the log. */
  lemma ImportThenPromote(s: PresenterState, importResult: OperationResult, promoteResult: OperationResult)
    requires s.hasView
    ensures var r := OnPromoteSuccess(OnImportSuccess(OnClickImport(s), importResult), promoteResult);
      && r.log == s.log + [importResult, promoteResult]
      && r.events == s.events + [StatusLineAdd(Import), HideAction, OperationImportKey(s.importKeyData),
                                 StatusLineOk, StatusLineAdd(TokenPromote),
                                 OperationPromote(s.masterKeyId, s.tokenAid),
                                 StatusLineOk, ShowActionViewKey]
  {
  }

  /** No guard against late completions: a completion that arrives after a
      retry, from a loader started before it, is processed like any other. */
  lemma LateCompletionIsProcessed(s: PresenterState, data: KeyRetrievalResult)
    requires s.hasView
    ensures var r := OnLoadFinished(OnClickRetry(s), LoaderKeyserver, data).next;
      && r.searchedKeyservers && !r.searchedLocally && !r.searchedAtUri
      && r.log == s.log + [data.operationResult]
  {
  }

  /** Over any sequence of calls the token never changes, the log and the
      event trace only grow, the log by at most one entry per call, and
      without a retry no search flag is ever cleared. */
  lemma {:induction false} RunOnlyAppends(s: PresenterState, calls: seq<Call>)
    ensures var r := Run(s, calls);
      && r.tokenAid == s.tokenAid
      && s.log <= r.log && |r.log| <= |s.log| + |calls|
      && s.events <= r.events
    ensures ClickRetry !in calls ==> forall src :: Searched(s, src) ==> Searched(Run(s, calls), src)
    decreases |calls|
  {
    if calls != [] && CallAllowed(s, calls[0]) {
      var step := Apply(s, calls[0]);
      if !step.outcome.IllegalArgumentException? {
        RunOnlyAppends(step.next, calls[1..]);
        assert ClickRetry !in calls ==> ClickRetry !in calls[1..] && !calls[0].ClickRetry?;
      }
    }
  }
}
