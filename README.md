# Security-token key resolution presenter, in Dafny

This project models the presenter behind OpenKeychain's "manage security
token" screen (`ManageSecurityTokenPresenter`). Given a hardware token, the
presenter looks for the token's public key in a fixed order of sources: the
local key store, then the URL stored on the token, then the keyservers. It
keeps three "searched" flags, appends every lookup and operation result to an
operation log, decides between "import the key, then promote it" and
"promote the already known key", offers retry or loading the key from a
file, and holds one selected file while it waits for a storage-permission
decision.

The model has four files:

- `types.dfy` (module `TokenTypes`): the values the presenter handles. These
  are the lookup result (`KeyRetrievalResult`: success flag, operation
  result, optional key bytes, optional 64-bit master key id), the loader ids
  0 to 3, the status lines, and `Event`. An `Event` is one call the presenter
  makes on its view or on its loader manager.
- `presenter_spec.dfy` (module `PresenterSpec`): the presenter's fields as a
  value (`PresenterState`, including the trace `events` of every view and
  loader-manager call) and one transition function per presenter method. A
  method that can throw `IllegalArgumentException` returns a `Step` holding
  the new state and the `Outcome`. `Apply` and `Run` drive the presenter
  with any sequence of calls.
- `presenter.dfy` (module `ManageSecurityToken`): the presenter as a class
  with the source's fields, updated in place. Each method is proved to leave
  the object in exactly the state that the matching transition function
  computes.
- `properties.dfy` (module `PresenterProperties`): what the presenter
  promises, proved about the transition functions.

Each asynchronous callback (a loader completion, an import or promote
result, a permission decision) is an ordinary method call that takes the
result as an argument. Whether the view is attached is the flag `hasView`.

## Model

| member | source | states |
|---|---|---|
| PresenterSpec.Initial | OpenKeychain/src/main/java/org/sufficientlysecure/keychain/ui/token/ManageSecurityTokenPresenter.java:68-74 | a new presenter has no view, no searched source, no key data, no master key id, no pending file and an empty log |
| PresenterSpec.UnsearchedIsOrdered | OpenKeychain/src/main/java/org/sufficientlysecure/keychain/ui/token/ManageSecurityTokenPresenter.java:93-113 | the reference list of sources still to search holds exactly the unsearched sources, in strictly increasing priority (LOCAL, URI, KEYSERVER) |
| PresenterSpec.ContinueSearch | OpenKeychain/src/main/java/org/sufficientlysecure/keychain/ui/token/ManageSecurityTokenPresenter.java:93-113 | continueSearch changes no field; it adds the status line and restarts the loader of the first unsearched source in priority order, or offers retry-or-from-file when all three are searched |
| PresenterSpec.ContinueSearchAfterError | OpenKeychain/src/main/java/org/sufficientlysecure/keychain/ui/token/ManageSecurityTokenPresenter.java:88-91 | the error marker comes first, then exactly continueSearch's calls: the next unsearched source's status line and loader restart, or, with every source searched, the retry-or-from-file offer; no field changes |
| PresenterSpec.OnActivityCreated | OpenKeychain/src/main/java/org/sufficientlysecure/keychain/ui/token/ManageSecurityTokenPresenter.java:81-86 | start-up changes nothing at all exactly when all three sources are searched; otherwise it only calls the view and loader manager |
| PresenterSpec.MarkSearched | OpenKeychain/src/main/java/org/sufficientlysecure/keychain/ui/token/ManageSecurityTokenPresenter.java:138-158 | a completion sets exactly the flag of its own search loader; the content-URI loader sets none; no other field changes |
| PresenterSpec.ProcessResult | OpenKeychain/src/main/java/org/sufficientlysecure/keychain/ui/token/ManageSecurityTokenPresenter.java:175-195 | the ok marker comes first; the call returns iff a master key id is present, else it throws with the source's message; the master key id is stored when present, and the key data only when both are present; the log and the pending file stay the same |
| PresenterSpec.OnLoadFinished | OpenKeychain/src/main/java/org/sufficientlysecure/keychain/ui/token/ManageSecurityTokenPresenter.java:133-167 | a completion keeps the token and the pending file; it grows the log by at most one entry and the event trace only at the end; it never clears a flag; it throws only when a view is attached |
| PresenterSpec.OnClickImport | OpenKeychain/src/main/java/org/sufficientlysecure/keychain/ui/token/ManageSecurityTokenPresenter.java:197-202 | the import request carries the stored key data, after the IMPORT line and hiding the action; no loader is restarted and no field changes |
| PresenterSpec.OnClickRetry | OpenKeychain/src/main/java/org/sufficientlysecure/keychain/ui/token/ManageSecurityTokenPresenter.java:236-244 | retry leaves every source unsearched and changes no other field; earlier events are kept |
| PresenterSpec.StartLoadingFile | OpenKeychain/src/main/java/org/sufficientlysecure/keychain/ui/token/ManageSecurityTokenPresenter.java:283-290 | loading a file restarts exactly one loader, the content-URI loader, and changes no field |
| PresenterSpec.Apply | OpenKeychain/src/main/java/org/sufficientlysecure/keychain/ui/token/ManageSecurityTokenPresenter.java:76-308 | every presenter call keeps the token, only appends to the log (at most one entry) and to the event trace, and only a retry clears a search flag |
| PresenterProperties.SearchOrderHolds | OpenKeychain/src/main/java/org/sufficientlysecure/keychain/ui/token/ManageSecurityTokenPresenter.java:93-113 | continueSearch restarts exactly one loader, that of the highest-priority unsearched source, after its status line; with all three searched it restarts none and offers retry-or-from-file |
| PresenterProperties.StartUpSearch | OpenKeychain/src/main/java/org/sufficientlysecure/keychain/ui/token/ManageSecurityTokenPresenter.java:82-86 | with all three sources searched, start-up is a no-op; otherwise it restarts exactly the loader of the first unsearched source |
| PresenterProperties.CompletionBookkeeping | OpenKeychain/src/main/java/org/sufficientlysecure/keychain/ui/token/ManageSecurityTokenPresenter.java:133-160 | without a view a completion changes nothing; an unknown loader id throws before any change; otherwise exactly that loader's flag is set and exactly its operation result is appended to the log |
| PresenterProperties.FailedCompletionContinues | OpenKeychain/src/main/java/org/sufficientlysecure/keychain/ui/token/ManageSecurityTokenPresenter.java:133-166 | a failed completion of the dispatched search loader marks it searched, logs it, shows the error marker and continues with the remaining sources |
| PresenterProperties.FailureFallback | OpenKeychain/src/main/java/org/sufficientlysecure/keychain/ui/token/ManageSecurityTokenPresenter.java:88-166 | a run of n failures after starting the search restarts the unsearched sources in priority order, one more than the failures so far while any remain; the log gains one entry per failure; retry-or-from-file is the last call once all have failed |
| PresenterProperties.FallbackNeverRepeats | OpenKeychain/src/main/java/org/sufficientlysecure/keychain/ui/token/ManageSecurityTokenPresenter.java:93-166 | a run of failures never restarts the loader of a source that was already searched, and never restarts one twice |
| PresenterProperties.ThreeFailuresExhaustSearch | OpenKeychain/src/main/java/org/sufficientlysecure/keychain/ui/token/ManageSecurityTokenPresenter.java:82-166 | from nothing searched, start-up and three failures restart LOCAL, URI, KEYSERVER in that order, log three entries, leave all flags set and end on retry-or-from-file |
| PresenterProperties.SuccessClassification | OpenKeychain/src/main/java/org/sufficientlysecure/keychain/ui/token/ManageSecurityTokenPresenter.java:162-195 | a successful completion with key data and master key id offers the import and never requests promotion; one with the id alone requests promotion with the token AID and never offers an import; one without an id throws after the ok marker |
| PresenterProperties.UriFindsNewKey | OpenKeychain/src/main/java/org/sufficientlysecure/keychain/ui/token/ManageSecurityTokenPresenter.java:133-195 | after LOCAL fails and URI finds key data with an id, the import is offered, the log holds both results and the keyserver loader is never restarted |
| PresenterProperties.RetryRestartsAtLocal | OpenKeychain/src/main/java/org/sufficientlysecure/keychain/ui/token/ManageSecurityTokenPresenter.java:236-244 | retry clears all three flags, hides the action, resets the status lines and restarts LOCAL next, whatever the earlier progress |
| PresenterProperties.ImportPromoteOutcomes | OpenKeychain/src/main/java/org/sufficientlysecure/keychain/ui/token/ManageSecurityTokenPresenter.java:204-233 | each import or promote outcome appends exactly its result to the log; import success requests promotion of the stored master key id with the token AID; promote success offers view-key; the errors only mark the line failed and restart no loader |
| PresenterProperties.ImportThenPromote | OpenKeychain/src/main/java/org/sufficientlysecure/keychain/ui/token/ManageSecurityTokenPresenter.java:197-226 | import then import success then promote success logs both results after the earlier entries and ends on the view-key action |
| PresenterProperties.PermissionGate | OpenKeychain/src/main/java/org/sufficientlysecure/keychain/ui/token/ManageSecurityTokenPresenter.java:271-302 | without read permission the file is held as the pending reference and permission is requested, with no loader restarted; a grant clears the slot and restarts the content-URI loader with the held file after resetting the status lines; a denial only clears the slot; none touches the flags or the log |
| PresenterProperties.FileDeniedLoadsNothing | OpenKeychain/src/main/java/org/sufficientlysecure/keychain/ui/token/ManageSecurityTokenPresenter.java:271-302 | a file picked without permission and then denied leaves no pending reference, restarts no loader and keeps the search state |
| PresenterProperties.ActionRequests | OpenKeychain/src/main/java/org/sufficientlysecure/keychain/ui/token/ManageSecurityTokenPresenter.java:246-308 | view-key, view-log, reset, confirm-reset and load-file only call the view, passing the stored master key id or the current log; none restarts a loader or touches the log, and none changes a field |
| PresenterProperties.LateCompletionIsProcessed | OpenKeychain/src/main/java/org/sufficientlysecure/keychain/ui/token/ManageSecurityTokenPresenter.java:132-160 | a keyserver completion that arrives after a retry is processed like any other: it sets the keyserver flag and appends to the log |
| PresenterProperties.RunOnlyAppends | OpenKeychain/src/main/java/org/sufficientlysecure/keychain/ui/token/ManageSecurityTokenPresenter.java:133-244 | over any sequence of calls the log and the event trace only grow, the log by at most one entry per call, and without a retry no search flag is ever cleared |
| ManageSecurityToken.ManageSecurityTokenPresenter.constructor | OpenKeychain/src/main/java/org/sufficientlysecure/keychain/ui/token/ManageSecurityTokenPresenter.java:68-74 | the new object is in the initial state |
| ManageSecurityToken.ManageSecurityTokenPresenter.SetView | OpenKeychain/src/main/java/org/sufficientlysecure/keychain/ui/token/ManageSecurityTokenPresenter.java:76-79 | only the view changes |
| ManageSecurityToken.ManageSecurityTokenPresenter.OnActivityCreated | OpenKeychain/src/main/java/org/sufficientlysecure/keychain/ui/token/ManageSecurityTokenPresenter.java:81-86 | the object moves as PresenterSpec.OnActivityCreated says |
| ManageSecurityToken.ManageSecurityTokenPresenter.ContinueSearchAfterError | OpenKeychain/src/main/java/org/sufficientlysecure/keychain/ui/token/ManageSecurityTokenPresenter.java:88-91 | the object moves as PresenterSpec.ContinueSearchAfterError says |
| ManageSecurityToken.ManageSecurityTokenPresenter.ContinueSearch | OpenKeychain/src/main/java/org/sufficientlysecure/keychain/ui/token/ManageSecurityTokenPresenter.java:93-113 | the object moves as PresenterSpec.ContinueSearch says |
| ManageSecurityToken.ManageSecurityTokenPresenter.OnLoadFinished | OpenKeychain/src/main/java/org/sufficientlysecure/keychain/ui/token/ManageSecurityTokenPresenter.java:132-167 | the object moves as PresenterSpec.OnLoadFinished says, and throws exactly when it does |
| ManageSecurityToken.ManageSecurityTokenPresenter.ProcessResult | OpenKeychain/src/main/java/org/sufficientlysecure/keychain/ui/token/ManageSecurityTokenPresenter.java:175-195 | the object moves as PresenterSpec.ProcessResult says, and throws exactly when it does |
| ManageSecurityToken.ManageSecurityTokenPresenter.OnClickImport | OpenKeychain/src/main/java/org/sufficientlysecure/keychain/ui/token/ManageSecurityTokenPresenter.java:197-202 | the object moves as PresenterSpec.OnClickImport says |
| ManageSecurityToken.ManageSecurityTokenPresenter.OnImportSuccess | OpenKeychain/src/main/java/org/sufficientlysecure/keychain/ui/token/ManageSecurityTokenPresenter.java:204-211 | the object moves as PresenterSpec.OnImportSuccess says |
| ManageSecurityToken.ManageSecurityTokenPresenter.OnImportError | OpenKeychain/src/main/java/org/sufficientlysecure/keychain/ui/token/ManageSecurityTokenPresenter.java:213-218 | the object moves as PresenterSpec.OnImportError says |
| ManageSecurityToken.ManageSecurityTokenPresenter.OnPromoteSuccess | OpenKeychain/src/main/java/org/sufficientlysecure/keychain/ui/token/ManageSecurityTokenPresenter.java:220-226 | the object moves as PresenterSpec.OnPromoteSuccess says |
| ManageSecurityToken.ManageSecurityTokenPresenter.OnPromoteError | OpenKeychain/src/main/java/org/sufficientlysecure/keychain/ui/token/ManageSecurityTokenPresenter.java:228-233 | the object moves as PresenterSpec.OnPromoteError says |
| ManageSecurityToken.ManageSecurityTokenPresenter.OnClickRetry | OpenKeychain/src/main/java/org/sufficientlysecure/keychain/ui/token/ManageSecurityTokenPresenter.java:235-244 | the object moves as PresenterSpec.OnClickRetry says |
| ManageSecurityToken.ManageSecurityTokenPresenter.OnClickViewKey | OpenKeychain/src/main/java/org/sufficientlysecure/keychain/ui/token/ManageSecurityTokenPresenter.java:246-249 | the object moves as PresenterSpec.OnClickViewKey says |
| ManageSecurityToken.ManageSecurityTokenPresenter.OnClickResetToken | OpenKeychain/src/main/java/org/sufficientlysecure/keychain/ui/token/ManageSecurityTokenPresenter.java:251-254 | the object moves as PresenterSpec.OnClickResetToken says |
| ManageSecurityToken.ManageSecurityTokenPresenter.OnClickConfirmReset | OpenKeychain/src/main/java/org/sufficientlysecure/keychain/ui/token/ManageSecurityTokenPresenter.java:256-259 | the object moves as PresenterSpec.OnClickConfirmReset says |
| ManageSecurityToken.ManageSecurityTokenPresenter.OnSecurityTokenResetSuccess | OpenKeychain/src/main/java/org/sufficientlysecure/keychain/ui/token/ManageSecurityTokenPresenter.java:261-264 | nothing changes |
| ManageSecurityToken.ManageSecurityTokenPresenter.OnClickLoadFile | OpenKeychain/src/main/java/org/sufficientlysecure/keychain/ui/token/ManageSecurityTokenPresenter.java:266-269 | the object moves as PresenterSpec.OnClickLoadFile says |
| ManageSecurityToken.ManageSecurityTokenPresenter.OnFileSelected | OpenKeychain/src/main/java/org/sufficientlysecure/keychain/ui/token/ManageSecurityTokenPresenter.java:271-281 | the object moves as PresenterSpec.OnFileSelected says |
| ManageSecurityToken.ManageSecurityTokenPresenter.StartLoadingFile | OpenKeychain/src/main/java/org/sufficientlysecure/keychain/ui/token/ManageSecurityTokenPresenter.java:283-290 | the object moves as PresenterSpec.StartLoadingFile says |
| ManageSecurityToken.ManageSecurityTokenPresenter.OnStoragePermissionGranted | OpenKeychain/src/main/java/org/sufficientlysecure/keychain/ui/token/ManageSecurityTokenPresenter.java:292-297 | the object moves as PresenterSpec.OnStoragePermissionGranted says |
| ManageSecurityToken.ManageSecurityTokenPresenter.OnStoragePermissionDenied | OpenKeychain/src/main/java/org/sufficientlysecure/keychain/ui/token/ManageSecurityTokenPresenter.java:299-302 | the object moves as PresenterSpec.OnStoragePermissionDenied says |
| ManageSecurityToken.ManageSecurityTokenPresenter.OnClickViewLog | OpenKeychain/src/main/java/org/sufficientlysecure/keychain/ui/token/ManageSecurityTokenPresenter.java:304-308 | the object moves as PresenterSpec.OnClickViewLog says |

## How the code behaves where one might expect otherwise

- Late completions are not filtered. The presenter has no generation or epoch
  counter, and `onLoadFinished` processes every completion it receives. A
  completion from a loader started before a retry therefore still sets its
  flag and appends to the log after the retry. `LateCompletionIsProcessed`
  proves this. The model follows the code and adds no guard.
- Start-up with all three sources already searched does nothing. It does not
  offer retry-or-from-file (lines 82-86).
- A successful lookup with key data but no master key id throws, just like
  one with neither (lines 180-194). Only the master key id decides whether
  the classifier returns.
- An exception does not undo what came before it. When `processResult`
  throws, the flag is already set, the result is already logged and the ok
  marker is already shown. The model keeps these changes in the `Step` it
  returns.
- A failed content-URI lookup also goes on with the automatic search (line
  165). If a search source is still unsearched, its loader is restarted.
- A permission grant with no pending file restarts the content-URI loader with
  a null URI (lines 292-297). The model records this as `ContentUriArg(None)`.

## Left out

- `onCreateLoader` (lines 117-130) only builds the four loader objects from
  the token's fingerprints, URL and signing fingerprint. A loader restart is
  an `Event` carrying the loader id and its argument, so the token's fields
  other than its AID are not part of the model.
- The loaders, `PermissionsUtil.checkReadPermission` and the view are
  external code. Loader results enter as method arguments, and the permission
  answer enters as the boolean `hasReadPermission`. Every view and
  loader-manager call is recorded as an `Event`, without modelling what it
  does.
- `onLoaderReset` (lines 169-172) has an empty body and is not modelled.
- Log contents: `OperationResult` is an opaque handle, and the indentation
  argument of `log.add` is dropped.
- ManageSecurityToken.ManageSecurityTokenPresenter.OnClickViewLog: the source
  hands the view a result that wraps the live log object, so later appends
  are visible through it. The model records a snapshot of the log.
- Null view: every method except `setView`, `onLoadFinished`,
  `onStoragePermissionDenied`, `onSecurityTokenResetSuccess` and an `onActivityCreated` that finds all
  sources searched dereferences the view. They therefore require `hasView`,
  and the resulting NullPointerException is not modelled.
- Unboxing a null `Long` in `operationPromote` or `finishAndShowKey` depends on
  the view's signatures, which are not part of this model. The events carry
  the master key id as an `Option`.
- Threads and asynchrony: every callback is one sequential call, and loader
  cancellation by restart is not modelled.
