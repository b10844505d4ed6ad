/** The security bookkeeping of `src/core/config.py`: the upload gate of
    `SecurityService.validate_file`, the sliding-window `RateLimiter` and
    the per-user `SessionManager`.  Clock readings (`datetime.utcnow()`) are
    whole seconds passed in as `now`; the random session id is passed in as
    `token`. */
module Security {
  import opened Wrappers
  import opened Strings

  /** The fields of `SecurityConfig` the modelled operations read. */
  datatype SecurityConfig = SecurityConfig(
    rateLimitWindow: int,
    maxRequestsPerWindow: int,
    sessionLifetime: int,
    maxSessionsPerUser: int,
    maxUploadSize: int,
    allowedExtensions: seq<string>)

  /** The pydantic defaults. */
  const DefaultConfig := SecurityConfig(3600, 1000, 3600, 5, 10 * 1024 * 1024, ["xlsx", "xls", "csv"])

  const Mebibyte := 1024 * 1024

  // ---------------------------------------------------------------------
  // validate_file
  // ---------------------------------------------------------------------

  /** `s.split('.')[-1]`: the longest suffix of `s` without a dot. */
  function LastField(s: string): (r: string)
    ensures '.' !in r
    ensures |r| <= |s| && r == s[|s| - |r|..]
    ensures |r| < |s| ==> s[|s| - |r| - 1] == '.'
  {
    if s == [] then []
    else if s[|s| - 1] == '.' then []
    else LastField(s[..|s| - 1]) + [s[|s| - 1]]
  }

  /** The extension `validate_file` compares: the last field, lower-cased. */
  function Extension(filename: string): string {
    Lower(LastField(filename))
  }

  datatype FileError = TypeNotAllowed(allowed: seq<string>) | TooLarge(maxSize: int)

  /** The extension and size gate; the SHA-256 digest returned on success
      is not modelled. */
  function ValidateFile(config: SecurityConfig, filename: string, content: seq<bv8>): Result<(), FileError> {
    if Extension(filename) !in config.allowedExtensions then Err(TypeNotAllowed(config.allowedExtensions))
    else if |content| > config.maxUploadSize then Err(TooLarge(config.maxUploadSize))
    else Ok(())
  }

  /** Python's `repr` of a list of plain strings (no quotes inside). */
  function ListRepr(items: seq<string>): string {
    "[" + Join(", ", QuoteAll(items)) + "]"
  }

  function QuoteAll(items: seq<string>): (r: seq<string>)
    ensures |r| == |items|
  {
    if items == [] then [] else ["'" + items[0] + "'"] + QuoteAll(items[1..])
  }

  /** The text of `MAX_UPLOAD_SIZE/1024/1024` as Python prints the float,
      for a whole number of mebibytes. */
  function MebibyteText(size: int): string {
    IntToString(size / Mebibyte) + ".0"
  }

  /** The message returned beside `False`. */
  function FileErrorMessage(e: FileError): string {
    match e
    case TypeNotAllowed(allowed) => "File type not allowed. Allowed types: " + ListRepr(allowed)
    case TooLarge(maxSize) => "File too large. Maximum size: " + MebibyteText(maxSize) + "MB"
  }

  /** A file passes exactly when its extension is allowed and it fits. */
  lemma ValidateFileAccepts(config: SecurityConfig, filename: string, content: seq<bv8>)
    ensures ValidateFile(config, filename, content).Ok? <==>
      Extension(filename) in config.allowedExtensions && |content| <= config.maxUploadSize
  {
  }

  /** The extension is checked first: a disallowed type is reported as such
      whatever the size of the content. */
  lemma {:induction false} TypeCheckedBeforeSize(config: SecurityConfig, filename: string, content: seq<bv8>, other: seq<bv8>)
    requires Extension(filename) !in config.allowedExtensions
    ensures ValidateFile(config, filename, content) == ValidateFile(config, filename, other)
    ensures ValidateFile(config, filename, content) == Err(TypeNotAllowed(config.allowedExtensions))
  {
  }

  /** Only the text after the last dot counts. */
  lemma {:induction false} LastFieldAfterDot(prefix: string, name: string)
    requires '.' !in name
    ensures LastField(prefix + "." + name) == name
  {
    if name == [] {
    } else {
      var s := prefix + "." + name;
      assert s[..|s| - 1] == prefix + "." + name[..|name| - 1];
      LastFieldAfterDot(prefix, name[..|name| - 1]);
      assert name == name[..|name| - 1] + [name[|name| - 1]];
    }
  }

  /** `report.csv.exe` is judged as an `exe` file and `archive.tar.csv` as a
      `csv` file, whatever comes before the last dot. */
  lemma ExtensionIsLastField(config: SecurityConfig, prefix: string, name: string, content: seq<bv8>)
    requires '.' !in name
    ensures ValidateFile(config, prefix + "." + name, content) == ValidateFile(config, name, content)
  {
    LastFieldAfterDot(prefix, name);
    LastFieldAfterDot([], name);
    assert LastField(name) == name by {
      assert [] + "." + name == "." + name;
      LastFieldWithoutDot(name);
    }
  }

  /** A name without a dot is its own last field. */
  lemma {:induction false} LastFieldWithoutDot(s: string)
    requires '.' !in s
    ensures LastField(s) == s
  {
    if s != [] {
      LastFieldWithoutDot(s[..|s| - 1]);
      assert s == s[..|s| - 1] + [s[|s| - 1]];
    }
  }

  /** Lower-casing one more character. */
  lemma LowerSnoc(s: string, c: char)
    ensures Lower(s + [c]) == Lower(s) + [LowerChar(c)]
  {
    var l := Lower(s + [c]);
    assert forall i :: 0 <= i < |s| ==> l[i] == LowerChar(s[i]) == Lower(s)[i];
  }

  /** Taking the last field of a name one character longer. */
  lemma LastFieldSnoc(t: string, c: char)
    ensures LastField(t + [c]) == if c == '.' then [] else LastField(t) + [c]
  {
    assert (t + [c])[..|t|] == t;
  }

  /** Lower-casing commutes with taking the last field (a dot is not a
      letter). */
  lemma {:induction false} LowerLastField(s: string)
    ensures LastField(Lower(s)) == Lower(LastField(s))
  {
    if s != [] {
      var init, c := s[..|s| - 1], s[|s| - 1];
      assert s == init + [c];
      LowerSnoc(init, c);
      LastFieldSnoc(init, c);
      LastFieldSnoc(Lower(init), LowerChar(c));
      assert LowerChar(c) == '.' <==> c == '.';
      if c != '.' {
        LowerLastField(init);
        LowerSnoc(LastField(init), c);
      }
    }
  }

  /** Lower-casing twice is lower-casing once. */
  lemma {:induction false} LowerIdempotent(s: string)
    ensures Lower(Lower(s)) == Lower(s)
  {
  }

  /** The gate ignores the case of the file name. */
  lemma CaseInsensitive(config: SecurityConfig, filename: string, content: seq<bv8>)
    ensures ValidateFile(config, Lower(filename), content) == ValidateFile(config, filename, content)
  {
    LowerLastField(filename);
    LowerIdempotent(LastField(filename));
  }

  /** Under the defaults, a spreadsheet upload ending in `.CSV` passes. */
  lemma DefaultAcceptsUpperCaseCsv(name: string, small: seq<bv8>)
    requires |small| <= 10 * Mebibyte
    ensures ValidateFile(DefaultConfig, name + ".CSV", small) == Ok(())
  {
    var csv := "CSV";
    LastFieldAfterDot(name, csv);
    assert name + "." + csv == name + ".CSV";
    assert Lower(csv) == [LowerChar('C'), LowerChar('S'), LowerChar('V')];
    assert Extension(name + ".CSV") == "csv";
    assert DefaultConfig.allowedExtensions[2] == "csv";
  }

  /** Under the defaults, an `exe` is refused with the listed types, even
      behind a spreadsheet extension (`shipments.csv.exe`). */
  lemma DefaultRefusesExe(name: string, content: seq<bv8>)
    ensures ValidateFile(DefaultConfig, name + ".exe", content) == Err(TypeNotAllowed(["xlsx", "xls", "csv"]))
  {
    var exe := "exe";
    LastFieldAfterDot(name, exe);
    assert name + "." + exe == name + ".exe";
    assert Lower(exe) == [LowerChar('e'), LowerChar('x'), LowerChar('e')];
    assert Extension(name + ".exe") == "exe";
  }

  /** Quoting one item and the rest. */
  lemma QuoteAllCons(item: string, rest: seq<string>)
    ensures QuoteAll([item] + rest) == ["'" + item + "'"] + QuoteAll(rest)
  {
    assert ([item] + rest)[1..] == rest;
  }

  /** The default extensions, each quoted. */
  lemma DefaultQuoted()
    ensures QuoteAll(DefaultConfig.allowedExtensions) == ["'xlsx'", "'xls'", "'csv'"]
  {
    QuoteAllCons("csv", []);
    assert ["csv"] + [] == ["csv"] && "'" + "csv" + "'" == "'csv'";
    assert QuoteAll(["csv"]) == ["'csv'"];
    QuoteAllCons("xls", ["csv"]);
    assert ["xls"] + ["csv"] == ["xls", "csv"] && "'" + "xls" + "'" == "'xls'";
    assert QuoteAll(["xls", "csv"]) == ["'xls'", "'csv'"];
    QuoteAllCons("xlsx", ["xls", "csv"]);
    assert ["xlsx"] + ["xls", "csv"] == DefaultConfig.allowedExtensions && "'" + "xlsx" + "'" == "'xlsx'";
  }

  /** The type message under the defaults lists the allowed types as
      Python prints the list. */
  lemma DefaultTypeMessage()
    ensures FileErrorMessage(TypeNotAllowed(DefaultConfig.allowedExtensions)) ==
      "File type not allowed. Allowed types: " + "['xlsx', 'xls', 'csv']"
  {
    DefaultQuoted();
    DefaultJoined();
    assert ListRepr(DefaultConfig.allowedExtensions) == "['xlsx', 'xls', 'csv']";
  }

  lemma DefaultJoined()
    ensures Join(", ", ["'xlsx'", "'xls'", "'csv'"]) == "'xlsx', 'xls', 'csv'"
  {
    var parts: seq<string> := ["'xlsx'", "'xls'", "'csv'"];
    assert Join(", ", parts[2..]) == "'csv'";
    assert Join(", ", parts[1..]) == "'xls', 'csv'";
  }

  /** The size message under the defaults reads 10.0MB. */
  lemma DefaultSizeMessage()
    ensures FileErrorMessage(TooLarge(DefaultConfig.maxUploadSize)) == "File too large. Maximum size: 10.0MB"
  {
    assert DefaultConfig.maxUploadSize / Mebibyte == 10;
    assert NatToString(10) == "10";
  }

  // ---------------------------------------------------------------------
  // RateLimiter
  // ---------------------------------------------------------------------

  /** The list comprehension keeping the timestamps strictly after
      `windowStart`, in their order. */
  function Recent(ts: seq<int>, windowStart: int): (r: seq<int>)
    ensures |r| <= |ts|
    ensures forall t :: t in r <==> t in ts && t > windowStart
    ensures forall t :: multiset(r)[t] == if t > windowStart then multiset(ts)[t] else 0
  {
    if ts == [] then []
    else
      var head := if ts[0] > windowStart then [ts[0]] else [];
      assert ts == [ts[0]] + ts[1..];
      head + Recent(ts[1..], windowStart)
  }

  /** The comprehension keeps order: pruning a concatenation prunes each
      part and concatenates the results. */
  lemma {:induction false} RecentAppend(a: seq<int>, b: seq<int>, windowStart: int)
    ensures Recent(a + b, windowStart) == Recent(a, windowStart) + Recent(b, windowStart)
  {
    if a == [] {
      assert a + b == b;
    } else {
      assert (a + b)[0] == a[0] && (a + b)[1..] == a[1..] + b;
      RecentAppend(a[1..], b, windowStart);
    }
  }

  /** Pruning an already pruned list changes nothing. */
  lemma {:induction false} RecentIdempotent(ts: seq<int>, windowStart: int)
    ensures Recent(Recent(ts, windowStart), windowStart) == Recent(ts, windowStart)
  {
    if ts != [] {
      var tail := Recent(ts[1..], windowStart);
      RecentIdempotent(ts[1..], windowStart);
      if ts[0] > windowStart {
        var r := [ts[0]] + tail;
        assert Recent(ts, windowStart) == r;
        assert r[0] == ts[0] && r[1..] == tail;
      } else {
        assert Recent(ts, windowStart) == tail;
      }
    }
  }

  /** Pruning keeps every timestamp already inside the window. */
  lemma {:induction false} RecentKeepsWindow(ts: seq<int>, windowStart: int)
    requires forall i :: 0 <= i < |ts| ==> ts[i] > windowStart
    ensures Recent(ts, windowStart) == ts
  {
    if ts != [] {
      RecentKeepsWindow(ts[1..], windowStart);
    }
  }

  /** What `is_rate_limited` answers and the request table it leaves. */
  function RateLimitStep(config: SecurityConfig, requests: map<string, seq<int>>, clientId: string, now: int)
    : (bool, map<string, seq<int>>)
  {
    var pruned := Recent(if clientId in requests then requests[clientId] else [], now - config.rateLimitWindow);
    if |pruned| >= config.maxRequestsPerWindow then (true, requests[clientId := pruned])
    else (false, requests[clientId := pruned + [now]])
  }

  /** A client is limited exactly when its window already holds the maximum
      number of requests; a refused request is not recorded, an accepted one
      is recorded last. */
  lemma RateLimitDecision(config: SecurityConfig, requests: map<string, seq<int>>, clientId: string, now: int)
    ensures var (limited, after) := RateLimitStep(config, requests, clientId, now);
      var pruned := Recent(if clientId in requests then requests[clientId] else [], now - config.rateLimitWindow);
      clientId in after &&
      (limited <==> |pruned| >= config.maxRequestsPerWindow) &&
      (limited ==> after[clientId] == pruned) &&
      (!limited ==> after[clientId] == pruned + [now])
  {
  }

  /** No other client's list is touched. */
  lemma RateLimitOthersUntouched(config: SecurityConfig, requests: map<string, seq<int>>, clientId: string, now: int, other: string)
    requires other != clientId
    ensures var after := RateLimitStep(config, requests, clientId, now).1;
      (other in after <==> other in requests) && (other in requests ==> after[other] == requests[other])
  {
  }

  /** Every list is at most the maximum long, and stays so. */
  predicate Bounded(config: SecurityConfig, requests: map<string, seq<int>>) {
    forall c :: c in requests ==> |requests[c]| <= config.maxRequestsPerWindow
  }

  lemma RateLimitKeepsBound(config: SecurityConfig, requests: map<string, seq<int>>, clientId: string, now: int)
    requires Bounded(config, requests)
    requires config.maxRequestsPerWindow >= 0
    ensures Bounded(config, RateLimitStep(config, requests, clientId, now).1)
  {
  }

  /** After an accepted request every timestamp of the client lies inside the
      window that ends at `now`. */
  lemma AcceptedListInWindow(config: SecurityConfig, requests: map<string, seq<int>>, clientId: string, now: int)
    requires config.rateLimitWindow > 0
    requires !RateLimitStep(config, requests, clientId, now).0
    ensures var l := RateLimitStep(config, requests, clientId, now).1[clientId];
      |l| >= 1 && l[|l| - 1] == now && forall i :: 0 <= i < |l| ==> l[i] > now - config.rateLimitWindow
  {
    var l := RateLimitStep(config, requests, clientId, now).1[clientId];
    forall i | 0 <= i < |l| ensures l[i] > now - config.rateLimitWindow {
      if i < |l| - 1 {
        assert l[i] in l[..|l| - 1];
      }
    }
  }

  /** Asking again at the same instant after a refusal is refused again and
      changes nothing more. */
  lemma {:induction false} RefusalIsStable(config: SecurityConfig, requests: map<string, seq<int>>, clientId: string, now: int)
    requires RateLimitStep(config, requests, clientId, now).0
    ensures var after := RateLimitStep(config, requests, clientId, now).1;
      RateLimitStep(config, after, clientId, now) == (true, after)
  {
    var old_ := if clientId in requests then requests[clientId] else [];
    RecentIdempotent(old_, now - config.rateLimitWindow);
    var after := RateLimitStep(config, requests, clientId, now).1;
    assert after[clientId := after[clientId]] == after;
  }

  /** `RateLimiter`: a table of per-client request times. */
  class RateLimiter {
    const config: SecurityConfig
    var requests: map<string, seq<int>>

    constructor (config: SecurityConfig)
      ensures this.config == config && requests == map[]
    {
      this.config := config;
      requests := map[];
    }

    /** `is_rate_limited`: prune the client's list, refuse when it is full,
        otherwise record `now`. */
    method IsRateLimited(clientId: string, now: int) returns (limited: bool)
      modifies this
      ensures (limited, requests) == RateLimitStep(config, old(requests), clientId, now)
    {
      var windowStart := now - config.rateLimitWindow;
      if clientId in requests {
        requests := requests[clientId := Recent(requests[clientId], windowStart)];
      } else {
        requests := requests[clientId := []];
      }
      if |requests[clientId]| >= config.maxRequestsPerWindow {
        return true;
      }
      ghost var pruned := requests;
      requests := requests[clientId := requests[clientId] + [now]];
      assert requests == old(requests)[clientId := pruned[clientId] + [now]];
      return false;
    }
  }

  // ---------------------------------------------------------------------
  // SessionManager
  // ---------------------------------------------------------------------

  datatype Session = Session(userId: string, createdAt: int, expiresAt: int)

  type SessionTable = map<string, Session>

  /** The ids of `userId`'s sessions that expired before `now`. */
  function ExpiredIds(sessions: SessionTable, userId: string, now: int): set<string> {
    set id | id in sessions && sessions[id].userId == userId && sessions[id].expiresAt < now
  }

  /** The table `_clean_expired_sessions` leaves. */
  function WithoutExpired(sessions: SessionTable, userId: string, now: int): SessionTable {
    sessions - ExpiredIds(sessions, userId, now)
  }

  /** The ids of `userId`'s sessions. */
  function UserSessions(sessions: SessionTable, userId: string): set<string> {
    set id | id in sessions && sessions[id].userId == userId
  }

  /** `oldest` is one of `ids` with the least creation time. */
  predicate IsOldest(sessions: SessionTable, ids: set<string>, oldest: string)
    requires ids <= sessions.Keys
  {
    oldest in ids && forall id :: id in ids ==> sessions[oldest].createdAt <= sessions[id].createdAt
  }

  /** Cleaning removes exactly the user's expired sessions: nothing of
      another user, nothing still live, and no expired one of the user is
      left. */
  lemma CleanupRemovesExactlyExpired(sessions: SessionTable, userId: string, now: int)
    ensures var after := WithoutExpired(sessions, userId, now);
      after.Keys <= sessions.Keys &&
      (forall id :: id in after ==> after[id] == sessions[id]) &&
      (forall id :: id in sessions && (sessions[id].userId != userId || sessions[id].expiresAt >= now) ==> id in after) &&
      (forall id :: id in after && after[id].userId == userId ==> after[id].expiresAt >= now)
  {
  }

  /** Cleaning twice is cleaning once. */
  lemma CleanupIdempotent(sessions: SessionTable, userId: string, now: int)
    ensures WithoutExpired(WithoutExpired(sessions, userId, now), userId, now) == WithoutExpired(sessions, userId, now)
  {
    var once := WithoutExpired(sessions, userId, now);
    assert ExpiredIds(once, userId, now) == {};
  }

  /** What `create_session` promises, given the table after cleaning: below
      the cap the new session is added; at the cap exactly one oldest
      session of the user is evicted first; at a cap of zero or less with no
      session to evict, `min` of an empty list raises and nothing is added. */
  ghost predicate CreateOutcome(config: SecurityConfig, cleaned: SessionTable, userId: string, now: int, token: string,
                                r: Result<string, string>, after: SessionTable)
  {
    var newSession := Session(userId, now, now + config.sessionLifetime);
    var users := UserSessions(cleaned, userId);
    if |users| < config.maxSessionsPerUser then
      r == Ok(token) && after == cleaned[token := newSession]
    else if users == {} then
      r == Err(EmptyMinError) && after == cleaned
    else
      r == Ok(token) && exists e :: IsOldest(cleaned, users, e) && after == (cleaned - {e})[token := newSession]
  }

  const EmptyMinError := "min() arg is an empty sequence"

  /** A user holding at most the cap keeps at most the cap after a session
      with a newSession id is created. */
  lemma {:induction false} SessionCapKept(config: SecurityConfig, cleaned: SessionTable, userId: string, now: int, token: string,
                                          r: Result<string, string>, after: SessionTable)
    requires CreateOutcome(config, cleaned, userId, now, token, r, after)
    requires token !in cleaned
    requires |UserSessions(cleaned, userId)| <= config.maxSessionsPerUser
    ensures |UserSessions(after, userId)| <= config.maxSessionsPerUser
  {
    var newSession := Session(userId, now, now + config.sessionLifetime);
    var users := UserSessions(cleaned, userId);
    if |users| < config.maxSessionsPerUser {
      UserSessionsInsert(cleaned, token, newSession);
    } else if users != {} {
      var e :| IsOldest(cleaned, users, e) && after == (cleaned - {e})[token := newSession];
      UserSessionsRemove(cleaned, e, userId);
      UserSessionsInsert(cleaned - {e}, token, newSession);
    }
  }

  /** Inserting a session under an unused id adds exactly that id to its
      user's sessions. */
  lemma UserSessionsInsert(sessions: SessionTable, token: string, session: Session)
    requires token !in sessions
    ensures UserSessions(sessions[token := session], session.userId) == UserSessions(sessions, session.userId) + {token}
    ensures |UserSessions(sessions[token := session], session.userId)| == |UserSessions(sessions, session.userId)| + 1
  {
    assert UserSessions(sessions[token := session], session.userId) == UserSessions(sessions, session.userId) + {token};
  }

  /** Deleting a session of `userId` removes exactly that id from the
      user's sessions. */
  lemma UserSessionsRemove(sessions: SessionTable, id: string, userId: string)
    requires id in UserSessions(sessions, userId)
    ensures UserSessions(sessions - {id}, userId) == UserSessions(sessions, userId) - {id}
    ensures |UserSessions(sessions - {id}, userId)| == |UserSessions(sessions, userId)| - 1
  {
    assert UserSessions(sessions - {id}, userId) == UserSessions(sessions, userId) - {id};
  }

  /** Sessions of other users survive creation unless the new id collides
      with theirs. */
  lemma OtherUsersKept(config: SecurityConfig, cleaned: SessionTable, userId: string, now: int, token: string,
                       r: Result<string, string>, after: SessionTable, id: string)
    requires CreateOutcome(config, cleaned, userId, now, token, r, after)
    requires id in cleaned && cleaned[id].userId != userId && id != token
    ensures id in after && after[id] == cleaned[id]
  {
    var users := UserSessions(cleaned, userId);
    if |users| >= config.maxSessionsPerUser && users != {} {
      var e :| IsOldest(cleaned, users, e) && after == (cleaned - {e})[token := Session(userId, now, now + config.sessionLifetime)];
      assert e != id;
    }
  }

  /** What `validate_session` answers and the table it leaves. */
  function ValidateStep(sessions: SessionTable, sessionId: string, now: int): (Option<string>, SessionTable) {
    if sessionId !in sessions then (None, sessions)
    else if sessions[sessionId].expiresAt < now then (None, sessions - {sessionId})
    else (Some(sessions[sessionId].userId), sessions)
  }

  /** Validation never adds or alters a session; it only drops the one
      asked about once it has expired, and then reports it unknown. */
  lemma ValidateOnlyDropsExpired(sessions: SessionTable, sessionId: string, now: int)
    ensures var (user, after) := ValidateStep(sessions, sessionId, now);
      after.Keys <= sessions.Keys &&
      (forall id :: id in after ==> after[id] == sessions[id]) &&
      (forall id :: id in sessions && id != sessionId ==> id in after) &&
      (user.Some? <==> sessionId in after) &&
      (user.Some? ==> user.value == sessions[sessionId].userId)
  {
  }

  /** Once a validation has said no, asking again says no again. */
  lemma {:induction false} RefusedStaysRefused(sessions: SessionTable, sessionId: string, now: int, later: int)
    requires ValidateStep(sessions, sessionId, now).0.None?
    ensures ValidateStep(ValidateStep(sessions, sessionId, now).1, sessionId, later) ==
      (None, ValidateStep(sessions, sessionId, now).1)
  {
  }

  /** A session just created is valid, for its user, up to and including
      its expiry time. */
  lemma {:induction false} CreatedSessionValidates(config: SecurityConfig, cleaned: SessionTable, userId: string, now: int, token: string,
                                                   r: Result<string, string>, after: SessionTable, t: int)
    requires CreateOutcome(config, cleaned, userId, now, token, r, after)
    requires r.Ok?
    requires t <= now + config.sessionLifetime
    ensures ValidateStep(after, token, t) == (Some(userId), after)
  {
    var users := UserSessions(cleaned, userId);
    if |users| >= config.maxSessionsPerUser && users != {} {
      var e :| IsOldest(cleaned, users, e) && after == (cleaned - {e})[token := Session(userId, now, now + config.sessionLifetime)];
    }
  }

  /** `SessionManager`: the session table. */
  class SessionManager {
    const config: SecurityConfig
    var sessions: SessionTable

    constructor (config: SecurityConfig)
      ensures this.config == config && sessions == map[]
    {
      this.config := config;
      sessions := map[];
    }

    /** `_clean_expired_sessions`: collect the user's expired ids, then
        delete them one by one. */
    method CleanExpiredSessions(userId: string, now: int)
      modifies this
      ensures sessions == WithoutExpired(old(sessions), userId, now)
    {
      var expired := ExpiredIds(sessions, userId, now);
      ghost var all := expired;
      while expired != {}
        invariant expired <= all
        invariant sessions == old(sessions) - (all - expired)
        decreases |expired|
      {
        var id :| id in expired;
        sessions := sessions - {id};
        expired := expired - {id};
      }
      assert all - expired == all;
    }

    /** `min(ids, key=created_at)`: a session of `ids` created first. */
    method OldestSession(ids: set<string>) returns (oldest: string)
      requires ids != {} && ids <= sessions.Keys
      ensures IsOldest(sessions, ids, oldest)
    {
      oldest :| oldest in ids;
      var rest := ids - {oldest};
      while rest != {}
        invariant rest <= ids && oldest in ids
        invariant forall id :: id in ids - rest ==> sessions[oldest].createdAt <= sessions[id].createdAt
        decreases |rest|
      {
        var id :| id in rest;
        if sessions[id].createdAt < sessions[oldest].createdAt {
          oldest := id;
        }
        rest := rest - {id};
      }
    }

    /** `create_session`, with `token` standing for `secrets.token_urlsafe(32)`. */
    method CreateSession(userId: string, now: int, token: string) returns (r: Result<string, string>)
      modifies this
      ensures CreateOutcome(config, WithoutExpired(old(sessions), userId, now), userId, now, token, r, sessions)
    {
      CleanExpiredSessions(userId, now);
      ghost var cleaned := sessions;
      var userSessions := UserSessions(sessions, userId);
      var newSession := Session(userId, now, now + config.sessionLifetime);
      if |userSessions| >= config.maxSessionsPerUser {
        if userSessions == {} {
          return Err(EmptyMinError);
        }
        var oldest := OldestSession(userSessions);
        sessions := sessions - {oldest};
        sessions := sessions[token := newSession];
        assert IsOldest(cleaned, userSessions, oldest);
        return Ok(token);
      }
      sessions := sessions[token := newSession];
      return Ok(token);
    }

    /** `validate_session`. */
    method ValidateSession(sessionId: string, now: int) returns (userId: Option<string>)
      modifies this
      ensures (userId, sessions) == ValidateStep(old(sessions), sessionId, now)
    {
      if sessionId !in sessions {
        return None;
      }
      var session := sessions[sessionId];
      if session.expiresAt < now {
        sessions := sessions - {sessionId};
        return None;
      }
      return Some(session.userId);
    }
  }
}
