/** The presenter of the "manage security token" screen as a state machine on
    values: one transition function per presenter method. The class in
    presenter.dfy is proved against these functions, and properties.dfy proves
    what the presenter promises about them. */
module PresenterSpec {
  import opened TokenTypes

  /** The presenter's fields, plus the trace of every call it has made on its
      view and its loader manager. `hasView` says whether the view is set. */
  datatype PresenterState = PresenterState(
    tokenAid: seq<byte>,
    hasView: bool,
    searchedLocally: bool,
    searchedAtUri: bool,
    searchedKeyservers: bool,
    importKeyData: Option<KeyData>,
    masterKeyId: Option<int64>,
    log: seq<OperationResult>,
    selectedContentUri: Option<Uri>,
    events: seq<Event>)

  /** The state after a call, and whether the call returned or threw. */
  datatype Step = Step(next: PresenterState, outcome: Outcome)

  /** A freshly constructed presenter: no view, nothing searched, empty log. */
  function Initial(tokenAid: seq<byte>): (s: PresenterState)
    ensures !s.hasView && s.tokenAid == tokenAid
    ensures !s.searchedLocally && !s.searchedAtUri && !s.searchedKeyservers
    ensures s.importKeyData == None && s.masterKeyId == None && s.selectedContentUri == None
    ensures s.log == [] && s.events == []
  {
    PresenterState(tokenAid, false, false, false, false, None, None, [], None, [])
  }

  function Searched(s: PresenterState, src: Source): bool
  {
    match src
    case Local => s.searchedLocally
    case AtUri => s.searchedAtUri
    case Keyserver => s.searchedKeyservers
  }

  predicate AllSearched(s: PresenterState)
  {
    s.searchedLocally && s.searchedAtUri && s.searchedKeyservers
  }

  /** The sources still to be searched, highest priority first. */
  function Unsearched(s: PresenterState): (u: seq<Source>)
    ensures u == [] <==> AllSearched(s)
  {
    (if !s.searchedLocally then [Local] else [])
    + (if !s.searchedAtUri then [AtUri] else [])
    + (if !s.searchedKeyservers then [Keyserver] else [])
  }

  /** Unsearched lists exactly the sources not yet searched, in strictly
      increasing priority order. */
  lemma UnsearchedIsOrdered(s: PresenterState)
    ensures forall src :: src in Unsearched(s) <==> !Searched(s, src)
    ensures forall i, j :: 0 <= i < j < |Unsearched(s)| ==> LoaderIdOf(Unsearched(s)[i]) < LoaderIdOf(Unsearched(s)[j])
  {
  }

  /** What the search emits for one source: its status line, then the restart
      of its loader. */
  function SearchDispatch(src: Source): seq<Event>
  {
    [StatusLineAdd(SearchLineOf(src)), RestartLoader(LoaderIdOf(src), NoArgs)]
  }

  /** continueSearch: query the highest-priority source not yet searched, or,
      when all three are searched, offer retry or loading from a file. */
  function ContinueSearch(s: PresenterState): (r: PresenterState)
    requires s.hasView
    ensures r == s.(events := r.events)
    ensures !AllSearched(s) ==> r.events == s.events + SearchDispatch(Unsearched(s)[0])
    ensures AllSearched(s) ==> r.events == s.events + [ShowActionRetryOrFromFile]
  {
    if !s.searchedLocally then
      s.(events := s.events + [StatusLineAdd(SearchLocal), RestartLoader(LoaderLocal, NoArgs)])
    else if !s.searchedAtUri then
      s.(events := s.events + [StatusLineAdd(SearchUri), RestartLoader(LoaderUri, NoArgs)])
    else if !s.searchedKeyservers then
      s.(events := s.events + [StatusLineAdd(SearchKeyserver), RestartLoader(LoaderKeyserver, NoArgs)])
    else
      s.(events := s.events + [ShowActionRetryOrFromFile])
  }

  /** continueSearchAfterError: mark the current line failed, then search on. */
  function ContinueSearchAfterError(s: PresenterState): (r: PresenterState)
    requires s.hasView
    ensures r == s.(events := r.events)
    ensures !AllSearched(s) ==> r.events == s.events + [StatusLineError] + SearchDispatch(Unsearched(s)[0])
    ensures AllSearched(s) ==> r.events == s.events + [StatusLineError, ShowActionRetryOrFromFile]
  {
    ContinueSearch(s.(events := s.events + [StatusLineError]))
  }

  /** onActivityCreated: start the search unless every source is searched. */
  function OnActivityCreated(s: PresenterState): (r: PresenterState)
    requires s.hasView || AllSearched(s)
    ensures r == s.(events := r.events)
    ensures r == s <==> AllSearched(s)
  {
    if !s.searchedLocally || !s.searchedAtUri || !s.searchedKeyservers then
      ContinueSearch(s)
    else
      s
  }

  /** The loader ids that onLoadFinished accepts. */
  predicate KnownLoader(loaderId: int)
  {
    loaderId == LoaderLocal || loaderId == LoaderUri
    || loaderId == LoaderKeyserver || loaderId == LoaderContentUri
  }

  /** The flag bookkeeping of onLoadFinished: a completion of a search loader
      marks exactly that source searched; the content-URI loader marks none. */
  function MarkSearched(s: PresenterState, loaderId: int): (r: PresenterState)
    ensures r == s.(searchedLocally := r.searchedLocally, searchedAtUri := r.searchedAtUri,
                    searchedKeyservers := r.searchedKeyservers)
    ensures forall src :: Searched(r, src) == (Searched(s, src) || loaderId == LoaderIdOf(src))
  {
    if loaderId == LoaderLocal then s.(searchedLocally := true)
    else if loaderId == LoaderUri then s.(searchedAtUri := true)
    else if loaderId == LoaderKeyserver then s.(searchedKeyservers := true)
    else s
  }

  /** processResult: classify a successful lookup. Key data and master key id
      offer an import; a master key id alone goes straight to promotion;
      anything else throws. */
  function ProcessResult(s: PresenterState, data: KeyRetrievalResult): (r: Step)
    requires s.hasView
    ensures r.next.log == s.log && r.next.selectedContentUri == s.selectedContentUri
    ensures r.next == s.(importKeyData := r.next.importKeyData, masterKeyId := r.next.masterKeyId,
                         events := r.next.events)
    ensures r.outcome == Returned <==> data.masterKeyId.Some?
    ensures r.outcome != Returned ==> r.outcome == IllegalArgumentException(NoKeyMessage)
    ensures r.next.masterKeyId == if data.masterKeyId.Some? then data.masterKeyId else s.masterKeyId
    ensures r.next.importKeyData
         == if data.keyData.Some? && data.masterKeyId.Some? then data.keyData else s.importKeyData
    ensures |r.next.events| > |s.events| && r.next.events[..|s.events| + 1] == s.events + [StatusLineOk]
  {
    var ok := s.(events := s.events + [StatusLineOk]);
    if data.keyData.Some? && data.masterKeyId.Some? then
      Step(ok.(events := ok.events + [ShowActionImport],
               importKeyData := data.keyData, masterKeyId := data.masterKeyId), Returned)
    else if data.masterKeyId.Some? then
      Step(ok.(masterKeyId := data.masterKeyId,
               events := ok.events + [StatusLineAdd(TokenCheck), OperationPromote(data.masterKeyId, s.tokenAid)]),
           Returned)
    else
      Step(ok, IllegalArgumentException(NoKeyMessage))
  }

  /** onLoadFinished: ignored without a view; otherwise bookkeeping, one log
      entry, then either the classifier or the next source. */
  function OnLoadFinished(s: PresenterState, loaderId: int, data: KeyRetrievalResult): (r: Step)
    ensures r.next.tokenAid == s.tokenAid && r.next.hasView == s.hasView
    ensures r.next.selectedContentUri == s.selectedContentUri
    ensures r.outcome.IllegalArgumentException? ==> s.hasView
    ensures s.log <= r.next.log && |r.next.log| <= |s.log| + 1
    ensures s.events <= r.next.events
    ensures forall src :: Searched(s, src) ==> Searched(r.next, src)
  {
    if !s.hasView then
      Step(s, Returned)
    else if !KnownLoader(loaderId) then
      Step(s, IllegalArgumentException(UnknownLoaderMessage))
    else
      var marked := MarkSearched(s, loaderId);
      var logged := marked.(log := marked.log + [data.operationResult]);
      if data.isSuccess then
        ProcessResult(logged, data)
      else
        Step(ContinueSearchAfterError(logged), Returned)
  }

  function OnClickImport(s: PresenterState): (r: PresenterState)
    requires s.hasView
    ensures r == s.(events := r.events)
    ensures r.events == s.events + [StatusLineAdd(Import), HideAction, OperationImportKey(s.importKeyData)]
    ensures Dispatches(r.events) == Dispatches(s.events)
  {
    DispatchesOfImport(s.events, s.importKeyData);
    s.(events := s.events + [StatusLineAdd(Import), HideAction, OperationImportKey(s.importKeyData)])
  }

  /** The result of an import or promote operation is logged. */
  function Logged(s: PresenterState, result: OperationResult): (r: PresenterState)
    ensures r == s.(log := r.log) && r.log == s.log + [result]
  {
    s.(log := s.log + [result])
  }

  function OnImportSuccess(s: PresenterState, result: OperationResult): (r: PresenterState)
    requires s.hasView
  {
    var l := Logged(s, result);
    l.(events := l.events + [StatusLineOk, StatusLineAdd(TokenPromote), OperationPromote(s.masterKeyId, s.tokenAid)])
  }

  function OnImportError(s: PresenterState, result: OperationResult): (r: PresenterState)
    requires s.hasView
  {
    var l := Logged(s, result);
    l.(events := l.events + [StatusLineError])
  }

  function OnPromoteSuccess(s: PresenterState, result: OperationResult): (r: PresenterState)
    requires s.hasView
  {
    var l := Logged(s, result);
    l.(events := l.events + [StatusLineOk, ShowActionViewKey])
  }

  function OnPromoteError(s: PresenterState, result: OperationResult): (r: PresenterState)
    requires s.hasView
  {
    var l := Logged(s, result);
    l.(events := l.events + [StatusLineError])
  }

  /** onClickRetry: forget every searched source, clear the screen and search
      again from the top. */
  function OnClickRetry(s: PresenterState): (r: PresenterState)
    requires s.hasView
    ensures Unsearched(r) == SearchOrder
    ensures s.events <= r.events
    ensures r == s.(searchedLocally := false, searchedAtUri := false, searchedKeyservers := false,
                    events := r.events)
  {
    var reset := s.(searchedLocally := false, searchedAtUri := false, searchedKeyservers := false);
    ContinueSearch(reset.(events := reset.events + [HideAction, ResetStatusLines]))
  }

  function OnClickViewKey(s: PresenterState): (r: PresenterState)
    requires s.hasView
  {
    s.(events := s.events + [FinishAndShowKey(s.masterKeyId)])
  }

  function OnClickResetToken(s: PresenterState): (r: PresenterState)
    requires s.hasView
  {
    s.(events := s.events + [ShowConfirmResetDialog])
  }

  function OnClickConfirmReset(s: PresenterState): (r: PresenterState)
    requires s.hasView
  {
    s.(events := s.events + [OperationResetSecurityToken])
  }

  function OnClickLoadFile(s: PresenterState): (r: PresenterState)
    requires s.hasView
  {
    s.(events := s.events + [ShowFileSelectDialog])
  }

  /** startLoadingFile: a one-shot lookup of a chosen file, outside the
      three-source search. */
  function StartLoadingFile(s: PresenterState, contentUri: Option<Uri>): (r: PresenterState)
    requires s.hasView
    ensures r == s.(events := r.events)
    ensures Dispatches(r.events) == Dispatches(s.events) + [LoaderContentUri]
  {
    DispatchesOfFileLoad(s.events, contentUri);
    s.(events := s.events + FileLoad(contentUri))
  }

  /** What startLoadingFile emits: a cleared screen, its status line, then the
      restart of the content-URI loader with the file as argument. */
  function FileLoad(contentUri: Option<Uri>): seq<Event>
  {
    [ResetStatusLines, StatusLineAdd(SearchContentUri), RestartLoader(LoaderContentUri, ContentUriArg(contentUri))]
  }

  lemma DispatchesOfFileLoad(events: seq<Event>, contentUri: Option<Uri>)
    ensures Dispatches(events + FileLoad(contentUri)) == Dispatches(events) + [LoaderContentUri]
  {
    var loading := FileLoad(contentUri);
    assert Dispatches(loading[2..][1..]) == [];
    assert Dispatches(loading[2..]) == [LoaderContentUri];
    assert Dispatches(loading[1..]) == [LoaderContentUri];
    DispatchesAppend(events, loading);
  }

  /** The calls of onClickImport restart no loader. */
  lemma DispatchesOfImport(events: seq<Event>, keyData: Option<KeyData>)
    ensures Dispatches(events + [StatusLineAdd(Import), HideAction, OperationImportKey(keyData)]) == Dispatches(events)
  {
    var more := [StatusLineAdd(Import), HideAction, OperationImportKey(keyData)];
    assert forall i :: 0 <= i < |more| ==> !more[i].RestartLoader?;
    DispatchesAppend(events, more);
  }

  /** onFileSelected, with the answer of the read-permission check passed in. */
  function OnFileSelected(s: PresenterState, contentUri: Uri, hasReadPermission: bool): (r: PresenterState)
    requires s.hasView
  {
    if !hasReadPermission then
      s.(selectedContentUri := Some(contentUri), events := s.events + [RequestStoragePermission])
    else
      StartLoadingFile(s, Some(contentUri))
  }

  function OnStoragePermissionGranted(s: PresenterState): (r: PresenterState)
    requires s.hasView
  {
    var contentUri := s.selectedContentUri;
    StartLoadingFile(s.(selectedContentUri := None), contentUri)
  }

  function OnStoragePermissionDenied(s: PresenterState): (r: PresenterState)
  {
    s.(selectedContentUri := None)
  }

  function OnClickViewLog(s: PresenterState): (r: PresenterState)
    requires s.hasView
  {
    s.(events := s.events + [ShowDisplayLogActivity(s.log)])
  }

  /** Every call the presenter accepts, as one tagged union. */
  datatype Call =
    | SetView(present: bool)
    | ActivityCreated
    | LoadFinished(loaderId: int, data: KeyRetrievalResult)
    | ClickImport
    | ImportSuccess(importResult: OperationResult)
    | ImportError(importResult: OperationResult)
    | PromoteSuccess(promoteResult: OperationResult)
    | PromoteError(promoteResult: OperationResult)
    | ClickRetry
    | ClickViewKey
    | ClickResetToken
    | ClickConfirmReset
    | SecurityTokenResetSuccess
    | ClickLoadFile
    | FileSelected(contentUri: Uri, hasReadPermission: bool)
    | StoragePermissionGranted
    | StoragePermissionDenied
    | ClickViewLog

  /** A call is defined when it does not dereference a missing view. */
  predicate CallAllowed(s: PresenterState, c: Call)
  {
    match c
    case SetView(_) => true
    case ActivityCreated => s.hasView || AllSearched(s)
    case LoadFinished(_, _) => true
    case SecurityTokenResetSuccess => true
    case StoragePermissionDenied => true
    case _ => s.hasView
  }

  /** One call. Every call keeps the token, only ever appends to the log (at
      most one entry) and to the event trace, and only a retry clears a
      search flag. */
  function Apply(s: PresenterState, c: Call): (r: Step)
    requires CallAllowed(s, c)
    ensures r.next.tokenAid == s.tokenAid
    ensures s.log <= r.next.log && |r.next.log| <= |s.log| + 1
    ensures s.events <= r.next.events
    ensures !c.ClickRetry? ==> forall src :: Searched(s, src) ==> Searched(r.next, src)
  {
    match c
    case SetView(present) => Step(s.(hasView := present), Returned)
    case ActivityCreated => Step(OnActivityCreated(s), Returned)
    case LoadFinished(loaderId, data) => OnLoadFinished(s, loaderId, data)
    case ClickImport => Step(OnClickImport(s), Returned)
    case ImportSuccess(result) => Step(OnImportSuccess(s, result), Returned)
    case ImportError(result) => Step(OnImportError(s, result), Returned)
    case PromoteSuccess(result) => Step(OnPromoteSuccess(s, result), Returned)
    case PromoteError(result) => Step(OnPromoteError(s, result), Returned)
    case ClickRetry => Step(OnClickRetry(s), Returned)
    case ClickViewKey => Step(OnClickViewKey(s), Returned)
    case ClickResetToken => Step(OnClickResetToken(s), Returned)
    case ClickConfirmReset => Step(OnClickConfirmReset(s), Returned)
    case SecurityTokenResetSuccess => Step(s, Returned)
    case ClickLoadFile => Step(OnClickLoadFile(s), Returned)
    case FileSelected(contentUri, hasReadPermission) =>
      Step(OnFileSelected(s, contentUri, hasReadPermission), Returned)
    case StoragePermissionGranted => Step(OnStoragePermissionGranted(s), Returned)
    case StoragePermissionDenied => Step(OnStoragePermissionDenied(s), Returned)
    case ClickViewLog => Step(OnClickViewLog(s), Returned)
  }

  /** A sequence of calls, stopping at the first call that is not defined or
      that throws. */
  function Run(s: PresenterState, calls: seq<Call>): PresenterState
    decreases |calls|
  {
    if calls == [] || !CallAllowed(s, calls[0]) then s
    else
      var step := Apply(s, calls[0]);
      if step.outcome.IllegalArgumentException? then step.next
      else Run(step.next, calls[1..])
  }
}
