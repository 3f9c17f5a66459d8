/** The presenter object itself: the fields it updates in place and one method
    per presenter method, each proved to move the object exactly as the
    matching transition function of PresenterSpec moves its value. */
module ManageSecurityToken {
  import opened TokenTypes
  import PresenterSpec

  class ManageSecurityTokenPresenter {
    /** The application id of the token this screen manages. */
    const tokenAid: seq<byte>

    var hasView: bool

    var searchedLocally: bool
    var searchedAtUri: bool
    var searchedKeyservers: bool

    var importKeyData: Option<KeyData>
    var masterKeyId: Option<int64>

    /** The operation log, appended to in place. */
    var log: seq<OperationResult>
    var selectedContentUri: Option<Uri>

    /** Every call made on the view and on the loader manager, in order. */
    var events: seq<Event>

    function State(): PresenterSpec.PresenterState
      reads this
    {
      PresenterSpec.PresenterState(tokenAid, hasView, searchedLocally, searchedAtUri, searchedKeyservers,
                                   importKeyData, masterKeyId, log, selectedContentUri, events)
    }

    constructor (tokenAid: seq<byte>)
      ensures State() == PresenterSpec.Initial(tokenAid)
    {
      this.tokenAid := tokenAid;
      hasView := false;
      searchedLocally, searchedAtUri, searchedKeyservers := false, false, false;
      importKeyData, masterKeyId := None, None;
      log := [];
      selectedContentUri := None;
      events := [];
    }

    method SetView(present: bool)
      modifies this
      ensures State() == old(State()).(hasView := present)
    {
      hasView := present;
    }

    method OnActivityCreated()
      requires hasView || PresenterSpec.AllSearched(State())
      modifies this
      ensures State() == PresenterSpec.OnActivityCreated(old(State()))
    {
      if !searchedLocally || !searchedAtUri || !searchedKeyservers {
        ContinueSearch();
      }
    }

    method ContinueSearchAfterError()
      requires hasView
      modifies this
      ensures State() == PresenterSpec.ContinueSearchAfterError(old(State()))
    {
      events := events + [StatusLineError];
      ContinueSearch();
    }

    method ContinueSearch()
      requires hasView
      modifies this
      ensures State() == PresenterSpec.ContinueSearch(old(State()))
    {
      if !searchedLocally {
        events := events + [StatusLineAdd(SearchLocal)];
        events := events + [RestartLoader(LoaderLocal, NoArgs)];
        return;
      }
      if !searchedAtUri {
        events := events + [StatusLineAdd(SearchUri)];
        events := events + [RestartLoader(LoaderUri, NoArgs)];
        return;
      }
      if !searchedKeyservers {
        events := events + [StatusLineAdd(SearchKeyserver)];
        events := events + [RestartLoader(LoaderKeyserver, NoArgs)];
        return;
      }
      events := events + [ShowActionRetryOrFromFile];
    }

    /** The completion callback of every loader. */
    method OnLoadFinished(loaderId: int, data: KeyRetrievalResult) returns (outcome: Outcome)
      modifies this
      ensures State() == PresenterSpec.OnLoadFinished(old(State()), loaderId, data).next
      ensures outcome == PresenterSpec.OnLoadFinished(old(State()), loaderId, data).outcome
    {
      if !hasView {
        return Returned;
      }
      if loaderId == LoaderLocal {
        searchedLocally := true;
      } else if loaderId == LoaderUri {
        searchedAtUri := true;
      } else if loaderId == LoaderKeyserver {
        searchedKeyservers := true;
      } else if loaderId == LoaderContentUri {
        // nothing to mark
      } else {
        return IllegalArgumentException(UnknownLoaderMessage);
      }
      log := log + [data.operationResult];
      if data.isSuccess {
        outcome := ProcessResult(data);
      } else {
        ContinueSearchAfterError();
        outcome := Returned;
      }
    }

    method ProcessResult(data: KeyRetrievalResult) returns (outcome: Outcome)
      requires hasView
      modifies this
      ensures State() == PresenterSpec.ProcessResult(old(State()), data).next
      ensures outcome == PresenterSpec.ProcessResult(old(State()), data).outcome
    {
      events := events + [StatusLineOk];
      if data.keyData.Some? && data.masterKeyId.Some? {
        events := events + [ShowActionImport];
        importKeyData := data.keyData;
        masterKeyId := data.masterKeyId;
        return Returned;
      }
      if data.masterKeyId.Some? {
        masterKeyId := data.masterKeyId;
        events := events + [StatusLineAdd(TokenCheck)];
        events := events + [OperationPromote(data.masterKeyId, tokenAid)];
        return Returned;
      }
      return IllegalArgumentException(NoKeyMessage);
    }

    method OnClickImport()
      requires hasView
      modifies this
      ensures State() == PresenterSpec.OnClickImport(old(State()))
    {
      events := events + [StatusLineAdd(Import)];
      events := events + [HideAction];
      events := events + [OperationImportKey(importKeyData)];
    }

    method OnImportSuccess(result: OperationResult)
      requires hasView
      modifies this
      ensures State() == PresenterSpec.OnImportSuccess(old(State()), result)
    {
      log := log + [result];
      events := events + [StatusLineOk];
      events := events + [StatusLineAdd(TokenPromote)];
      events := events + [OperationPromote(masterKeyId, tokenAid)];
    }

    method OnImportError(result: OperationResult)
      requires hasView
      modifies this
      ensures State() == PresenterSpec.OnImportError(old(State()), result)
    {
      log := log + [result];
      events := events + [StatusLineError];
    }

    method OnPromoteSuccess(result: OperationResult)
      requires hasView
      modifies this
      ensures State() == PresenterSpec.OnPromoteSuccess(old(State()), result)
    {
      log := log + [result];
      events := events + [StatusLineOk];
      events := events + [ShowActionViewKey];
    }

    method OnPromoteError(result: OperationResult)
      requires hasView
      modifies this
      ensures State() == PresenterSpec.OnPromoteError(old(State()), result)
    {
      log := log + [result];
      events := events + [StatusLineError];
    }

    method OnClickRetry()
      requires hasView
      modifies this
      ensures State() == PresenterSpec.OnClickRetry(old(State()))
    {
      searchedLocally := false;
      searchedAtUri := false;
      searchedKeyservers := false;
      events := events + [HideAction];
      events := events + [ResetStatusLines];
      ContinueSearch();
    }

    method OnClickViewKey()
      requires hasView
      modifies this
      ensures State() == PresenterSpec.OnClickViewKey(old(State()))
    {
      events := events + [FinishAndShowKey(masterKeyId)];
    }

    method OnClickResetToken()
      requires hasView
      modifies this
      ensures State() == PresenterSpec.OnClickResetToken(old(State()))
    {
      events := events + [ShowConfirmResetDialog];
    }

    method OnClickConfirmReset()
      requires hasView
      modifies this
      ensures State() == PresenterSpec.OnClickConfirmReset(old(State()))
    {
      events := events + [OperationResetSecurityToken];
    }

    /** The reset confirmation has no effect on the presenter. */
    method OnSecurityTokenResetSuccess()
      ensures State() == old(State())
    {
    }

    method OnClickLoadFile()
      requires hasView
      modifies this
      ensures State() == PresenterSpec.OnClickLoadFile(old(State()))
    {
      events := events + [ShowFileSelectDialog];
    }

    /** The user picked a file; `hasReadPermission` is the answer of the
        platform's read-permission check for it. */
    method OnFileSelected(contentUri: Uri, hasReadPermission: bool)
      requires hasView
      modifies this
      ensures State() == PresenterSpec.OnFileSelected(old(State()), contentUri, hasReadPermission)
    {
      if !hasReadPermission {
        selectedContentUri := Some(contentUri);
        events := events + [RequestStoragePermission];
        return;
      }
      StartLoadingFile(Some(contentUri));
    }

    method StartLoadingFile(contentUri: Option<Uri>)
      requires hasView
      modifies this
      ensures State() == PresenterSpec.StartLoadingFile(old(State()), contentUri)
    {
      events := events + [ResetStatusLines];
      events := events + [StatusLineAdd(SearchContentUri)];
      events := events + [RestartLoader(LoaderContentUri, ContentUriArg(contentUri))];
    }

    method OnStoragePermissionGranted()
      requires hasView
      modifies this
      ensures State() == PresenterSpec.OnStoragePermissionGranted(old(State()))
    {
      var contentUri := selectedContentUri;
      selectedContentUri := None;
      StartLoadingFile(contentUri);
    }

    method OnStoragePermissionDenied()
      modifies this
      ensures State() == PresenterSpec.OnStoragePermissionDenied(old(State()))
    {
      selectedContentUri := None;
    }

    method OnClickViewLog()
      requires hasView
      modifies this
      ensures State() == PresenterSpec.OnClickViewLog(old(State()))
    {
      events := events + [ShowDisplayLogActivity(log)];
    }
  }
}
