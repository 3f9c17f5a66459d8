/** Value types shared by the security-token presenter model: the results the
    lookup loaders deliver, the loader ids, the status lines and the calls the
    presenter makes on its view and on its loader manager. */
module TokenTypes {

  datatype Option<+T> = None | Some(value: T)

  /** Java's `long`, the type of a master key id. */
  newtype int64 = x: int | -0x8000_0000_0000_0000 <= x < 0x8000_0000_0000_0000

  type byte = bv8

  /** Raw key material (`byte[]`). */
  type KeyData = seq<byte>

  /** A content URI chosen by the user; only its identity matters here. */
  type Uri = string

  /** An operation result as it is appended to the operation log. Its log
      entries are not modelled: a result is an opaque handle. */
  datatype OperationResult = OperationResult(handle: nat)

  /** What a lookup loader delivers on completion. */
  datatype KeyRetrievalResult = KeyRetrievalResult(
    operationResult: OperationResult,
    isSuccess: bool,
    keyData: Option<KeyData>,
    masterKeyId: Option<int64>)

  /** A failed lookup carrying the given operation result. */
  function Failed(op: OperationResult): (r: KeyRetrievalResult)
    ensures !r.isSuccess && r.operationResult == op
  {
    KeyRetrievalResult(op, false, None, None)
  }

  /** Loader ids, as the presenter passes them to its loader manager. */
  const LoaderLocal: int := 0
  const LoaderUri: int := 1
  const LoaderKeyserver: int := 2
  const LoaderContentUri: int := 3

  /** The three sources of the automatic search, in their fixed priority. */
  datatype Source = Local | AtUri | Keyserver

  const SearchOrder: seq<Source> := [Local, AtUri, Keyserver]

  function LoaderIdOf(src: Source): (id: int)
    ensures 0 <= id < 3 && SearchOrder[id] == src
  {
    match src
    case Local => LoaderLocal
    case AtUri => LoaderUri
    case Keyserver => LoaderKeyserver
  }

  datatype StatusLine =
    | SearchLocal
    | SearchUri
    | SearchKeyserver
    | SearchContentUri
    | Import
    | TokenPromote
    | TokenCheck

  /** The status line shown while a search source is being queried. */
  function SearchLineOf(src: Source): StatusLine
  {
    match src
    case Local => SearchLocal
    case AtUri => SearchUri
    case Keyserver => SearchKeyserver
  }

  /** The argument bundle of a loader restart. */
  datatype LoaderArgs = NoArgs | ContentUriArg(contentUri: Option<Uri>)

  /** One call the presenter makes on its view or on its loader manager. */
  datatype Event =
    | StatusLineAdd(line: StatusLine)
    | StatusLineOk
    | StatusLineError
    | ResetStatusLines
    | HideAction
    | ShowActionImport
    | ShowActionRetryOrFromFile
    | ShowActionViewKey
    | ShowConfirmResetDialog
    | ShowFileSelectDialog
    | RequestStoragePermission
    | OperationImportKey(keyData: Option<KeyData>)
    | OperationPromote(masterKeyId: Option<int64>, aid: seq<byte>)
    | OperationResetSecurityToken
    | FinishAndShowKey(masterKeyId: Option<int64>)
    | ShowDisplayLogActivity(log: seq<OperationResult>)
    | RestartLoader(id: int, args: LoaderArgs)

  /** How a presenter call ends: it returns, or it throws an
      IllegalArgumentException with the given message. */
  datatype Outcome = Returned | IllegalArgumentException(message: string)

  const UnknownLoaderMessage: string := "called with unknown loader id!"
  const NoKeyMessage: string := "Method can only be called with successful result!"

  /** The ids of the loaders restarted in a trace of events, in order. */
  function Dispatches(events: seq<Event>): (ids: seq<int>)
    ensures |ids| <= |events|
    ensures (forall i :: 0 <= i < |events| ==> !events[i].RestartLoader?) ==> ids == []
  {
    if events == [] then []
    else
      var rest := Dispatches(events[1..]);
      if events[0].RestartLoader? then [events[0].id] + rest else rest
  }

  lemma {:induction false} DispatchesAppend(a: seq<Event>, b: seq<Event>)
    ensures Dispatches(a + b) == Dispatches(a) + Dispatches(b)
  {
    if a == [] {
      assert a + b == b;
    } else {
      assert (a + b)[1..] == a[1..] + b;
      DispatchesAppend(a[1..], b);
    }
  }
}
