/**
 * The audit log record: how its recorded changes are shown, how a record
 * is assembled from an action and its request, when it counts as recent,
 * and which address a request came from.
 *
 * Source: audit_system/models.py.
 */
module AuditModels {
  import opened Common

  // ---------------------------------------------------------------------
  // Recorded changes
  // ---------------------------------------------------------------------

  /**
   * One value of the `changes` JSON: either an object with `old` and
   * `new`, or any other JSON scalar.
   */
  datatype ChangeValue = OldNew(oldValue: PyValue, newValue: PyValue) | Other(v: PyValue)

  /** One key of the `changes` object, in the object's order. */
  datatype Entry = Entry(field: string, change: ChangeValue)

  const NO_CHANGES: string := "Nenhuma altera\U{E7}\U{E3}o registrada"
  const EMPTY_VALUE: string := "(vazio)"
  const ARROW: string := " \U{2192} "
  const ENTRY_SEPARATOR: string := "; "

  /** `value or '(vazio)'`, formatted: a falsy value is shown as "(vazio)". */
  function Shown(v: PyValue): (r: string)
    ensures r != ""
    ensures !IsTruthy(v) ==> r == EMPTY_VALUE
    ensures IsTruthy(v) ==> r == PyStr(v)
  {
    if IsTruthy(v) then
      (match v
       case PyText(s) => s
       case PyInt(i) => IntToString(i)
       case PyBool(_) => "True"
       case PyNone => "None")
    else EMPTY_VALUE
  }

  /** One entry as "field: old → new" or "field: value". */
  function EntryText(e: Entry): (r: string)
    ensures |r| > |e.field| && r[..|e.field|] == e.field && r[|e.field|] == ':'
  {
    match e.change
    case OldNew(o, n) => e.field + ": " + Shown(o) + ARROW + Shown(n)
    case Other(v) => e.field + ": " + PyStr(v)
  }

  function EntryTexts(changes: seq<Entry>): (r: seq<string>)
    ensures |r| == |changes|
  {
    if changes == [] then []
    else EntryTexts(changes[..|changes| - 1]) + [EntryText(changes[|changes| - 1])]
  }

  /** What `get_changes_display` shows for a `changes` object. */
  function ChangesDisplay(changes: seq<Entry>): string
  {
    if changes == [] then NO_CHANGES else Join(EntryTexts(changes), ENTRY_SEPARATOR)
  }

  /** `get_changes_display`: the entries' texts are collected in order, then joined. */
  method GetChangesDisplay(changes: seq<Entry>) returns (text: string)
    ensures text == ChangesDisplay(changes)
  {
    if changes == [] {
      return NO_CHANGES;
    }
    var pieces: seq<string> := [];
    var i := 0;
    while i < |changes|
      invariant 0 <= i <= |changes|
      invariant pieces == EntryTexts(changes[..i])
    {
      assert changes[..i + 1][..i] == changes[..i];
      pieces := pieces + [EntryText(changes[i])];
      i := i + 1;
    }
    assert changes[..i] == changes;
    text := Join(pieces, ENTRY_SEPARATOR);
  }

  lemma {:induction false} JoinStartsWithFirst(parts: seq<string>, sep: string)
    requires parts != []
    ensures |Join(parts, sep)| >= |parts[0]| && Join(parts, sep)[..|parts[0]|] == parts[0]
  {
  }

  /** The "no changes" message is shown exactly when nothing was recorded. */
  lemma NoChangesMessageIffEmpty(changes: seq<Entry>)
    ensures ChangesDisplay(changes) == NO_CHANGES <==> changes == []
  {
    if changes != [] {
      var texts := EntryTexts(changes);
      var first := EntryText(changes[0]);
      assert texts[0] == first by { EntryTextsAt(changes, 0); }
      JoinStartsWithFirst(texts, ENTRY_SEPARATOR);
      var r := ChangesDisplay(changes);
      var k := |changes[0].field|;
      assert r[k] == first[k] == ':';
      assert ':' in r;
      NoChangesHasNoColon();
    }
  }

  lemma NoChangesHasNoColon()
    ensures ':' !in NO_CHANGES
  {
    forall j | 0 <= j < |NO_CHANGES| ensures NO_CHANGES[j] != ':' {
    }
  }

  lemma {:induction false} EntryTextsAt(changes: seq<Entry>, i: int)
    requires 0 <= i < |changes|
    ensures EntryTexts(changes)[i] == EntryText(changes[i])
  {
    if i < |changes| - 1 {
      var init := changes[..|changes| - 1];
      EntryTextsAt(init, i);
      assert init[i] == changes[i];
    }
  }

  /** A single entry is shown on its own, without separators. */
  lemma SingleEntryDisplay(e: Entry)
    ensures ChangesDisplay([e]) == EntryText(e)
  {
    assert [e][..0] == [];
  }

  // ---------------------------------------------------------------------
  // The client's address
  // ---------------------------------------------------------------------

  /** The request headers the log reads. */
  datatype RequestMeta = RequestMeta(forwardedFor: Option<string>, remoteAddr: Option<string>, userAgent: Option<string>)

  /**
   * `get_client_ip`: the first address of a non-empty `X-Forwarded-For`
   * chain, stripped; otherwise the socket's address.
   */
  function GetClientIp(meta: RequestMeta): (r: Option<string>)
    ensures (meta.forwardedFor.None? || meta.forwardedFor.value == "") ==> r == meta.remoteAddr
    ensures meta.forwardedFor.Some? && meta.forwardedFor.value != "" ==>
              r.Some? && ',' !in r.value && |r.value| <= |meta.forwardedFor.value|
    ensures meta.forwardedFor.Some? && ',' !in meta.forwardedFor.value && meta.forwardedFor.value != "" ==>
              r == Some(Strip(meta.forwardedFor.value))
  {
    match meta.forwardedFor
    case Some(chain) =>
      if chain != "" then
        var first := Split(chain, ',')[0];
        SplitFirstIsPrefix(chain, ',');
        if ',' !in chain then SplitWithoutSeparator(chain, ','); Some(Strip(first))
        else Some(Strip(first))
      else meta.remoteAddr
    case None => meta.remoteAddr
  }

  lemma {:induction false} SplitFirstIsPrefix(s: string, sep: char)
    ensures |Split(s, sep)[0]| <= |s|
  {
    if s != [] {
      SplitFirstIsPrefix(s[1..], sep);
    }
  }

  /** Behind a chain of proxies, the address logged is the first hop's, stripped. */
  lemma FirstHopOfChain(hops: seq<string>, remoteAddr: Option<string>, userAgent: Option<string>)
    requires |hops| >= 1 && hops[0] != ""
    requires forall i :: 0 <= i < |hops| ==> ',' !in hops[i]
    ensures GetClientIp(RequestMeta(Some(Join(hops, ",")), remoteAddr, userAgent)) == Some(Strip(hops[0]))
  {
    SplitJoin(hops, ',');
    JoinStartsWithFirst(hops, ",");
  }

  // ---------------------------------------------------------------------
  // Recency
  // ---------------------------------------------------------------------

  /** Microseconds in a minute; timestamps are counted in microseconds. */
  const MICROS_PER_MINUTE: int := 60000000

  /** `is_recent`: fewer than `minutes` minutes have elapsed since the record's timestamp. */
  predicate IsRecent(now: int, timestamp: int, minutes: int)
  {
    now - timestamp < minutes * MICROS_PER_MINUTE
  }

  /** The integer test agrees with comparing elapsed seconds against `minutes * 60`. */
  lemma IsRecentInSeconds(now: int, timestamp: int, minutes: int)
    ensures IsRecent(now, timestamp, minutes) <==> (now - timestamp) as real / 1000000.0 < (minutes * 60) as real
  {
  }

  /** A record recent within a window is recent within any wider window, and at any earlier moment. */
  lemma IsRecentMonotone(now: int, earlier: int, timestamp: int, minutes: int, wider: int)
    requires IsRecent(now, timestamp, minutes) && minutes <= wider && earlier <= now
    ensures IsRecent(now, timestamp, wider) && IsRecent(earlier, timestamp, minutes)
  {
  }

  // ---------------------------------------------------------------------
  // Assembling a record
  // ---------------------------------------------------------------------

  datatype UserRef = UserRef(id: int, username: string)

  /** The object a record is about: its content type, primary key and `str()`. */
  datatype ObjectRef = ObjectRef(contentType: string, objectId: string, repr: string)

  datatype RequestUser = RequestUser(user: UserRef, isAuthenticated: bool)

  datatype Request = Request(meta: RequestMeta, sessionKey: Option<string>, user: Option<RequestUser>)

  datatype AuditRecord = AuditRecord(
    action: string,
    user: Option<UserRef>,
    success: bool,
    errorMessage: Option<string>,
    changes: seq<Entry>,
    extraData: seq<(string, PyValue)>,
    contentObject: Option<ObjectRef>,
    objectRepr: string,
    ipAddress: Option<string>,
    userAgent: Option<string>,
    sessionKey: Option<string>)

  predicate HasAuthenticatedUser(request: Option<Request>)
  {
    request.Some? && request.value.user.Some? && request.value.user.value.isAuthenticated
  }

  /**
   * `log_action`, up to the insert: the record's fields are filled in
   * step by step from the arguments and the request.
   */
  method LogAction(action: string, obj: Option<ObjectRef>, user: Option<UserRef>,
                   changes: Option<seq<Entry>>, extraData: Option<seq<(string, PyValue)>>,
                   request: Option<Request>, success: bool, errorMessage: Option<string>)
    returns (r: AuditRecord)
    ensures r.action == action && r.success == success && r.errorMessage == errorMessage
    ensures changes.None? ==> r.changes == []
    ensures changes.Some? ==> r.changes == changes.value
    ensures extraData.None? ==> r.extraData == []
    ensures extraData.Some? ==> r.extraData == extraData.value
    ensures r.contentObject == obj
    ensures obj.Some? ==> r.objectRepr == obj.value.repr
    ensures obj.None? ==> r.objectRepr == "A\U{E7}\U{E3}o: " + action
    ensures user.Some? ==> r.user == user
    ensures user.None? ==> (r.user.Some? <==> HasAuthenticatedUser(request))
    ensures user.None? && HasAuthenticatedUser(request) ==> r.user == Some(request.value.user.value.user)
    ensures request.None? ==> r.ipAddress.None? && r.userAgent.None? && r.sessionKey.None?
    ensures request.Some? ==> r.ipAddress == GetClientIp(request.value.meta) && r.sessionKey == request.value.sessionKey
    ensures request.Some? ==> r.userAgent == Some(if request.value.meta.userAgent.Some? then request.value.meta.userAgent.value else "")
  {
    r := AuditRecord(action, user, success, errorMessage,
                     if changes.Some? then changes.value else [],
                     if extraData.Some? then extraData.value else [],
                     None, "", None, None, None);
    if obj.Some? {
      r := r.(contentObject := obj, objectRepr := obj.value.repr);
    } else {
      r := r.(objectRepr := "A\U{E7}\U{E3}o: " + action);
    }
    if request.Some? {
      var req := request.value;
      var agent := if req.meta.userAgent.Some? then req.meta.userAgent.value else "";
      r := r.(ipAddress := GetClientIp(req.meta), userAgent := Some(agent), sessionKey := req.sessionKey);
      if user.None? && req.user.Some? && req.user.value.isAuthenticated {
        r := r.(user := Some(req.user.value.user));
      }
    }
  }
}
