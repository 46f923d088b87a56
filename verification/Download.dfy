/**
 `download` and `acquireSource` (`cmd/kbuild-step/main.go`): a resumable fetch
 against a server that may fail in any way between two answers.
 */
module Download {
  import opened Wrappers
  import opened Text
  import opened Specs

  type Content = string

  /** One request as the loop sees it end. */
  datatype Reply =
    | NoAnswer(permanent: bool)
    | Answer(status: nat, body: Content, clean: bool, retryAfter: string)

  /** What the server and the caller's context do: attempt and offset to reply, attempt to cancellation. */
  datatype Net = Net(reply: (nat, nat) -> Reply, cancelled: nat -> bool)

  const MAX_ATTEMPTS: nat := 5
  const RETRY_BASE: nat := 2
  const RETRY_CAP: nat := 30
  const MAX_INT: int := 0x7FFF_FFFF_FFFF_FFFF

  function Max(a: nat, b: nat): nat {
    if a < b then b else a
  }

  /** Without the sign. */
  function Unsigned(s: string): string {
    if s != "" && (s[0] == '+' || s[0] == '-') then s[1..] else s
  }

  /** `strconv.Atoi`. */
  function Atoi(s: string): Option<int> {
    if Unsigned(s) == "" || !All(Unsigned(s), Digit) then None
    else
      var n: int := Value(Unsigned(s));
      var v: int := if s[0] == '-' then -n else n;
      if -MAX_INT - 1 <= v <= MAX_INT then Some(v) else None
  }

  /** `parseRetryAfter`, in seconds: no more than the cap, and nothing for what is not a positive number. */
  function RetryAfter(header: string): (n: nat)
    ensures n <= RETRY_CAP
  {
    match Atoi(TrimSpace(header))
    case None => 0
    case Some(v) => if v <= 0 then 0 else if v > RETRY_CAP then RETRY_CAP else v
  }

  function Have(file: Option<Content>): nat {
    if file.None? then 0 else |file.value|
  }

  // ---- the reference ----

  /** What one reply comes to: the whole call ends, or the loop goes on with this file and this hint. */
  datatype After = Success(whole: Content) | Failure | Again(file: Option<Content>, hint: nat)

  function React(reply: Reply, file: Option<Content>): After {
    match reply
    case NoAnswer(permanent) => if permanent then Failure else Again(file, 0)
    case Answer(status, body, clean, retryAfter) =>
      if status == 200 then
        if clean then Success(body) else Again(Some(body), 0)
      else if status == 206 then
        var whole := (if file.None? then [] else file.value) + body;
        if clean then Success(whole) else Again(Some(whole), 0)
      else if status == 416 && Have(file) > 0 then Again(None, 0)
      else if status == 429 || status >= 500 then Again(file, RetryAfter(retryAfter))
      else Failure
  }

  function Pause(attempt: nat, hint: nat): seq<nat> {
    if attempt > 1 then [Max(hint, attempt * RETRY_BASE)] else []
  }

  /** A finished call: how it ended, the file it left, and the pauses it made. */
  datatype Outcome = Outcome(ok: bool, file: Option<Content>, waits: seq<nat>)

  function Attempts(net: Net, attempt: nat, file: Option<Content>, hint: nat): Outcome
    requires 1 <= attempt <= MAX_ATTEMPTS + 1
    decreases MAX_ATTEMPTS + 1 - attempt
  {
    if attempt == MAX_ATTEMPTS + 1 then Outcome(false, file, [])
    else
      var pause := Pause(attempt, hint);
      if attempt > 1 && net.cancelled(attempt) then Outcome(false, file, pause)
      else
        match React(net.reply(attempt, Have(file)), file)
        case Success(whole) => Outcome(true, Some(whole), pause)
        case Failure => Outcome(false, file, pause)
        case Again(file', hint') =>
          var rest := Attempts(net, attempt + 1, file', hint');
          rest.(waits := pause + rest.waits)
  }

  /** With these pauses behind it, the call ends as the attempts from this one on do. */
  ghost predicate Continues(net: Net, waits: seq<nat>, attempt: nat, file: Option<Content>, hint: nat) {
    1 <= attempt <= MAX_ATTEMPTS + 1 &&
    var rest := Attempts(net, attempt, file, hint);
    Attempts(net, 1, None, 0) == rest.(waits := waits + rest.waits)
  }

  lemma Beginning(net: Net)
    ensures Continues(net, [], 1, None, 0)
  {
    var o := Attempts(net, 1, None, 0);
    assert [] + o.waits == o.waits;
  }

  /** One attempt: it ends the call or passes it on. */
  lemma Attempt(net: Net, waits: seq<nat>, attempt: nat, file: Option<Content>, hint: nat)
    requires Continues(net, waits, attempt, file, hint) && attempt <= MAX_ATTEMPTS
    ensures var now := waits + Pause(attempt, hint);
      if attempt > 1 && net.cancelled(attempt) then Attempts(net, 1, None, 0) == Outcome(false, file, now)
      else match React(net.reply(attempt, Have(file)), file)
        case Success(whole) => Attempts(net, 1, None, 0) == Outcome(true, Some(whole), now)
        case Failure => Attempts(net, 1, None, 0) == Outcome(false, file, now)
        case Again(file', hint') => Continues(net, now, attempt + 1, file', hint')
  {
    hide React, Pause;
    if !(attempt > 1 && net.cancelled(attempt)) {
      match React(net.reply(attempt, Have(file)), file) {
        case Again(file', hint') =>
          var rest := Attempts(net, attempt + 1, file', hint');
          assert waits + (Pause(attempt, hint) + rest.waits) == waits + Pause(attempt, hint) + rest.waits;
        case _ =>
      }
    }
  }

  lemma Spent(net: Net, waits: seq<nat>, file: Option<Content>, hint: nat)
    requires Continues(net, waits, MAX_ATTEMPTS + 1, file, hint)
    ensures Attempts(net, 1, None, 0) == Outcome(false, file, waits)
  {
    assert waits + [] == waits;
  }

  // ---- the loop ----

  class Partial {
    var file: Option<Content>

    constructor (file: Option<Content>)
      ensures this.file == file
    {
      this.file := file;
    }

    /** Whatever an earlier call left, the file starts empty; what happens then is `Attempts`. */
    method Fetch(net: Net) returns (ok: bool, waits: seq<nat>)
      modifies this
      ensures Outcome(ok, file, waits) == Attempts(net, 1, None, 0)
    {
      hide Attempts, Continues, RetryAfter, Honest;
      file := None;
      waits := [];
      var retryAfter: nat := 0;
      var attempt: nat := 1;
      Beginning(net);
      while attempt <= MAX_ATTEMPTS
        invariant 1 <= attempt <= MAX_ATTEMPTS + 1
        invariant attempt == 1 ==> retryAfter == 0
        invariant Continues(net, waits, attempt, file, retryAfter)
        invariant forall c {:trigger Honest(net, c)} :: Honest(net, c) ==> PartOf(file, c)
      {
        Attempt(net, waits, attempt, file, retryAfter);
        assert attempt == 1 ==> waits + Pause(1, 0) == waits;
        if attempt > 1 {
          var wait := Max(retryAfter, attempt * RETRY_BASE);
          retryAfter := 0;
          waits := waits + [wait];
          if net.cancelled(attempt) {
            return false, waits;
          }
        }
        var have := if file.None? then 0 else |file.value|;
        var resp := net.reply(attempt, have);
        forall c | Honest(net, c) ensures PartOf(file, c) && GoodReply(resp, file, c) { ReactKeeps(net, c, attempt, file); }
        if resp.NoAnswer? {
          if resp.permanent {
            return false, waits;
          }
        } else if resp.status == 200 || resp.status == 206 {
          Receive(resp.status == 206, resp.body);
          assert [] + resp.body == resp.body;
          if resp.clean {
            return true, waits;
          }
        } else if resp.status == 416 && have > 0 {
          file := None;
        } else if resp.status == 429 || resp.status >= 500 {
          var ra := RetryAfter(resp.retryAfter);
          if ra > retryAfter {
            retryAfter := ra;
          }
        } else {
          return false, waits;
        }
        attempt := attempt + 1;
      }
      Spent(net, waits, file, retryAfter);
      return false, waits;
    }

    /** The body of an answer goes behind what is there, or replaces it. */
    method Receive(append: bool, body: Content)
      modifies this
      ensures file == Some((if append && old(file).Some? then old(file.value) else []) + body)
    {
      if append && file.Some? {
        file := Some(file.value + body);
      } else {
        file := Some(body);
        assert [] + body == body;
      }
    }
  }

  // ---- what the fetch promises ----

  /**
   A server that answers a whole request with a part of `c` and a range with a part
   of what follows the offset, and says it is done only at the end.
   */
  ghost predicate Honest(net: Net, c: Content) {
    forall attempt: nat, have: nat ::
      match net.reply(attempt, have)
      case NoAnswer(_) => true
      case Answer(status, body, clean, _) =>
        && (status == 200 ==> body <= c && (clean ==> body == c))
        && (status == 206 ==> have <= |c| && body <= c[have..] && (clean ==> body == c[have..]))
  }

  /** The file is a part of the content from its start. */
  predicate PartOf(file: Option<Content>, c: Content) {
    file.Some? ==> file.value <= c
  }

  /** What a reply makes of the file is a part of the content, and all of it if the call ends well. */
  ghost predicate GoodReply(reply: Reply, file: Option<Content>, c: Content) {
    match React(reply, file)
    case Success(whole) => whole == c
    case Failure => true
    case Again(file', _) => PartOf(file', c)
  }

  lemma ReactKeeps(net: Net, c: Content, attempt: nat, file: Option<Content>)
    requires Honest(net, c) && PartOf(file, c)
    ensures GoodReply(net.reply(attempt, Have(file)), file, c)
  {
    var reply := net.reply(attempt, Have(file));
    if reply.Answer? && reply.status == 206 {
      var got := if file.None? then [] else file.value;
      assert got + reply.body <= c && (reply.clean ==> got + reply.body == c) by {
        assert c == got + c[Have(file)..];
      }
    }
  }

  /** The file as each attempt from this one on finds it, and at last as the call leaves it. */
  function Files(net: Net, attempt: nat, file: Option<Content>): seq<Option<Content>>
    requires 1 <= attempt <= MAX_ATTEMPTS + 1
    decreases MAX_ATTEMPTS + 1 - attempt
  {
    if attempt == MAX_ATTEMPTS + 1 || (attempt > 1 && net.cancelled(attempt)) then [file]
    else
      match React(net.reply(attempt, Have(file)), file)
      case Success(whole) => [file, Some(whole)]
      case Failure => [file]
      case Again(file', _) => [file] + Files(net, attempt + 1, file')
  }

  /** Every attempt finds a part of the content, the call leaves one, and success means all of it. */
  lemma {:induction false} AttemptsExact(net: Net, c: Content, attempt: nat, file: Option<Content>, hint: nat)
    requires Honest(net, c) && PartOf(file, c) && 1 <= attempt <= MAX_ATTEMPTS + 1
    ensures var o, fs := Attempts(net, attempt, file, hint), Files(net, attempt, file);
      && (forall k :: 0 <= k < |fs| ==> PartOf(fs[k], c))
      && fs != [] && fs[|fs| - 1] == o.file && (o.ok ==> o.file == Some(c))
    decreases MAX_ATTEMPTS + 1 - attempt
  {
    hide Honest, React;
    if attempt <= MAX_ATTEMPTS {
      ReactKeeps(net, c, attempt, file);
      match React(net.reply(attempt, Have(file)), file) {
        case Success(_) =>
        case Failure =>
        case Again(file', hint') => AttemptsExact(net, c, attempt + 1, file', hint');
      }
    }
  }

  lemma HintBounded(reply: Reply, file: Option<Content>)
    ensures React(reply, file).Again? ==> React(reply, file).hint <= RETRY_CAP
  {
    hide Atoi;
  }

  /**
   The pauses: at most one before each attempt but the first, growing with the
   attempt, and never longer than the backoff or the cap on what a server can ask.
   */
  lemma {:induction false} PausesBounded(net: Net, attempt: nat, file: Option<Content>, hint: nat)
    requires 1 <= attempt <= MAX_ATTEMPTS + 1 && hint <= RETRY_CAP
    ensures var w := Attempts(net, attempt, file, hint).waits;
      && |w| <= MAX_ATTEMPTS - (if attempt == 1 then 1 else attempt - 1)
      && forall k :: 0 <= k < |w| ==>
           var n := k + (if attempt == 1 then 2 else attempt);
           n * RETRY_BASE <= w[k] <= Max(RETRY_CAP, n * RETRY_BASE)
    decreases MAX_ATTEMPTS + 1 - attempt
  {
    hide React;
    if attempt <= MAX_ATTEMPTS {
      HintBounded(net.reply(attempt, Have(file)), file);
      match React(net.reply(attempt, Have(file)), file) {
        case Success(_) =>
        case Failure =>
        case Again(file', hint') => PausesBounded(net, attempt + 1, file', hint');
      }
    }
  }

  /**
   The replies after which the loop tries again: trouble on the way, a server that is
   busy or broken, a body that broke off, or an offset past the end.
   */
  predicate Transient(reply: Reply, have: nat) {
    match reply
    case NoAnswer(permanent) => !permanent
    case Answer(status, _, clean, _) =>
      status == 429 || status >= 500 || (status in {200, 206} && !clean) || (status == 416 && have > 0)
  }

  /** The replies that end the call well: a whole body, or the rest of one. */
  predicate Clean(reply: Reply) {
    reply.Answer? && reply.status in {200, 206} && reply.clean
  }

  /**
   A reply that is neither ends the call where it stands, with the file as it was; a
   clean one ends it with that body, behind what was there if it is the rest; after
   any other the loop goes on.
   */
  lemma AttemptEnds(net: Net, attempt: nat, file: Option<Content>, hint: nat)
    requires 1 <= attempt <= 5 && (attempt == 1 || !net.cancelled(attempt))
    ensures var reply, o := net.reply(attempt, if file.None? then 0 else |file.value|), Attempts(net, attempt, file, hint);
      && (Clean(reply) ==>
            && o.ok && |o.waits| == (if attempt == 1 then 0 else 1)
            && o.file == Some(if reply.status == 206 && file.Some? then file.value + reply.body else reply.body))
      && (!Clean(reply) && !Transient(reply, Have(file)) ==>
            !o.ok && o.file == file && |o.waits| == (if attempt == 1 then 0 else 1))
      && (Transient(reply, Have(file)) && attempt == 5 ==> !o.ok)
  {
    hide RetryAfter;
    var reply := net.reply(attempt, Have(file));
    if attempt == 5 && Transient(reply, Have(file)) {
      var next := React(reply, file);
      assert !Attempts(net, 6, next.file, next.hint).ok;
    }
    if reply.Answer? { assert [] + reply.body == reply.body; }
  }

  /** A file is left for the next attempt as the last reply left it. */
  lemma NextFile(net: Net, attempt: nat, file: Option<Content>, hint: nat)
    requires 1 <= attempt < 5 && (attempt == 1 || !net.cancelled(attempt))
    requires Transient(net.reply(attempt, Have(file)), Have(file))
    ensures var reply := net.reply(attempt, Have(file));
      var file' := if reply.NoAnswer? || reply.status == 429 || reply.status >= 500 then file
                   else if reply.status == 416 then None
                   else if reply.status == 206 && file.Some? then Some(file.value + reply.body) else Some(reply.body);
      && Files(net, attempt, file) == [file] + Files(net, attempt + 1, file')
      && var hint' := if reply.Answer? && (reply.status == 429 || reply.status >= 500) then RetryAfter(reply.retryAfter) else 0;
         var o, rest := Attempts(net, attempt, file, hint), Attempts(net, attempt + 1, file', hint');
         o.ok == rest.ok && o.file == rest.file
  {
    hide RetryAfter;
    var reply := net.reply(attempt, Have(file));
    if reply.Answer? { assert [] + reply.body == reply.body; }
  }

  /** One clean answer among the five attempts is enough, if only transient trouble comes before it. */
  lemma {:induction false} OneCleanAnswer(net: Net, c: Content, attempt: nat, file: Option<Content>, hint: nat, k: nat)
    requires Honest(net, c) && PartOf(file, c) && 1 <= attempt <= k <= 5
    requires forall n :: !net.cancelled(n)
    requires forall n, have: nat {:trigger net.reply(n, have)} :: attempt <= n < k ==> Transient(net.reply(n, have), have)
    requires forall have :: Clean(net.reply(k, have))
    ensures Attempts(net, attempt, file, hint).ok && Attempts(net, attempt, file, hint).file == Some(c)
    decreases k - attempt
  {
    hide RetryAfter;
    AttemptsExact(net, c, attempt, file, hint);
    ReactKeeps(net, c, attempt, file);
    if attempt < k {
      assert Transient(net.reply(attempt, Have(file)), Have(file));
      match React(net.reply(attempt, Have(file)), file) {
        case Again(file', hint') => OneCleanAnswer(net, c, attempt + 1, file', hint', k);
      }
    } else {
      assert Clean(net.reply(k, Have(file)));
    }
  }

  // ---- what a server asks for ----

  lemma NotSpace(c: char)
    requires Digit(c) || c == '+' || c == '-'
    ensures !Space(c)
  {
  }

  /** A number of seconds is kept up to thirty, as far as it fits a machine integer. */
  lemma RetryAfterIs(pad: string, n: nat, rest: string)
    requires Spaces(pad) && Spaces(rest)
    ensures RetryAfter(pad + Decimal(n) + rest) == if n > 9223372036854775807 then 0 else if n > 30 then 30 else n
    ensures RetryAfter(pad + ("-" + Decimal(n)) + rest) == 0
  {
    hide Space, TrimSpace, Value, Decimal;
    var d := Decimal(n);
    DecimalValue(n);
    NotSpace(d[0]);
    NotSpace(d[|d| - 1]);
    NotSpace('-');
    TrimPadded(pad, d, rest);
    AtoiIs(d);
    TrimPadded(pad, "-" + d, rest);
    assert ("-" + d)[1..] == d;
  }

  lemma AtoiIs(d: string)
    requires d != "" && All(d, Digit)
    ensures Atoi(d) == if Value(d) <= 9223372036854775807 then Some(Value(d)) else None
  {
    hide Value;
    assert Digit(d[0]);
  }

  /** Anything that is not a number asks for nothing. */
  lemma RetryAfterNone(header: string, i: nat)
    requires i < |TrimSpace(header)| && !Digit(TrimSpace(header)[i]) && (i > 0 || TrimSpace(header)[i] != '+')
    ensures RetryAfter(header) == 0
  {
    AtoiNot(TrimSpace(header), i);
  }

  lemma AtoiNot(t: string, i: nat)
    requires i < |t| && !Digit(t[i]) && (i > 0 || t[i] != '+')
    ensures Atoi(t).Some? ==> Atoi(t).value <= 0
  {
    if i > 0 {
      assert !Digit(Unsigned(t)[if Unsigned(t) == t then i else i - 1]);
    } else if t[0] != '-' {
      assert !Digit(Unsigned(t)[0]);
    }
  }

  /** The next attempt waits what a busy server asked for, or the growing backoff if that is longer. */
  lemma HintHeeded(net: Net, attempt: nat, file: Option<Content>, hint: nat, n: nat)
    requires 1 <= attempt < 5 && (attempt == 1 || !net.cancelled(attempt)) && n <= 9223372036854775807
    requires var reply := net.reply(attempt, Have(file));
      reply.Answer? && (reply.status == 429 || reply.status >= 500) && reply.retryAfter == Decimal(n)
    ensures var w, k := Attempts(net, attempt, file, hint).waits, if attempt == 1 then 0 else 1;
      && |w| > k
      && w[k] == (var asked := if n > 30 then 30 else n; if asked < 2 * (attempt + 1) then 2 * (attempt + 1) else asked)
      && (attempt > 1 ==> w[0] == if hint < 2 * attempt then 2 * attempt else hint)
  {
    hide RetryAfter, Decimal;
    RetryAfterIs("", n, "");
    assert "" + Decimal(n) + "" == Decimal(n);
    var reply := net.reply(attempt, Have(file));
    assert React(reply, file) == Again(file, RetryAfter(reply.retryAfter));
    var rest := Attempts(net, attempt + 1, file, RetryAfter(reply.retryAfter));
    FirstWait(net, attempt + 1, file, RetryAfter(reply.retryAfter));
    assert Attempts(net, attempt, file, hint).waits == Pause(attempt, hint) + rest.waits;
  }

  lemma FirstWait(net: Net, attempt: nat, file: Option<Content>, hint: nat)
    requires 1 < attempt <= 5
    ensures Pause(attempt, hint) <= Attempts(net, attempt, file, hint).waits
  {
    hide React;
  }

  // ---- the cached tarball ----

  /** What a call leaves of the two files of the cached source. */
  datatype Kept = Kept(ok: bool, cached: Option<Content>, part: Option<Content>)

  /** A cached tarball with the pinned hash is used as it is; else a download that passes takes its place. */
  function Acquired(sha: Content -> string, sum: string, net: Net, before: Kept): (k: Kept)
    ensures k.ok ==> k.cached.Some? && (sum != "" ==> sha(k.cached.value) == sum)
    ensures !k.ok ==> k.cached == before.cached
  {
    if sum != "" && before.cached.Some? && sha(before.cached.value) == sum then before.(ok := true)
    else
      var o := Attempts(net, 1, None, 0);
      if !o.ok then Kept(false, before.cached, o.file)
      else
        SuccessHasFile(net, 1, None, 0);
        if sum != "" && sha(o.file.value) != sum then Kept(false, before.cached, None)
        else Kept(true, o.file, None)
  }

  /** Under a pin that the content meets, an honest server's content is what ends up cached. */
  lemma AcquiredContent(sha: Content -> string, sum: string, net: Net, before: Kept, c: Content)
    requires Honest(net, c)
    ensures var k := Acquired(sha, sum, net, before);
      k.ok ==> k.cached == Some(c) || (k.cached == before.cached && sum != "" && sha(before.cached.value) == sum)
  {
    AttemptsExact(net, c, 1, None, 0);
  }

  /**
   A cached tarball that meets its pin is used as it is, without a request; any other
   is replaced if one of five answers comes through clean and meets the pin, and kept
   if it does not.
   */
  lemma AcquiredWhen(sha: Content -> string, sum: string, net: Net, before: Kept, c: Content, k: nat)
    requires Honest(net, c) && 1 <= k <= 5 && forall n :: !net.cancelled(n)
    requires forall n, have: nat {:trigger net.reply(n, have)} :: 1 <= n < k ==> Transient(net.reply(n, have), have)
    requires forall have :: Clean(net.reply(k, have))
    ensures var after, cached := Acquired(sha, sum, net, before), before.cached;
      if sum != "" && cached.Some? && sha(cached.value) == sum then after == Kept(true, cached, before.part)
      else if sum == "" || sha(c) == sum then after == Kept(true, Some(c), None)
      else after == Kept(false, cached, None)
  {
    OneCleanAnswer(net, c, 1, None, 0, k);
  }

  /** Without a clean answer the call fails, and only the partial file is touched. */
  lemma AcquiredNot(sha: Content -> string, sum: string, net: Net, before: Kept)
    requires !(sum != "" && before.cached.Some? && sha(before.cached.value) == sum)
    requires forall n, have: nat {:trigger net.reply(n, have)} :: 1 <= n <= 5 ==> !Clean(net.reply(n, have))
    ensures !Acquired(sha, sum, net, before).ok && Acquired(sha, sum, net, before).cached == before.cached
  {
    NeverClean(net, 1, None, 0);
  }

  lemma {:induction false} NeverClean(net: Net, attempt: nat, file: Option<Content>, hint: nat)
    requires 1 <= attempt <= 6
    requires forall n, have: nat {:trigger net.reply(n, have)} :: 1 <= n <= 5 ==> !Clean(net.reply(n, have))
    ensures !Attempts(net, attempt, file, hint).ok
    decreases 6 - attempt
  {
    hide RetryAfter;
    if attempt <= 5 && !(attempt > 1 && net.cancelled(attempt)) {
      assert !Clean(net.reply(attempt, Have(file)));
      match React(net.reply(attempt, Have(file)), file) {
        case Success(_) =>
        case Failure =>
        case Again(file', hint') => NeverClean(net, attempt + 1, file', hint');
      }
    }
  }

  /** The two files of the cached source on a mount. */
  class Cache {
    var cached: Option<Content>
    const part: Partial

    constructor (cached: Option<Content>, part: Partial)
      ensures this.cached == cached && this.part == part
    {
      this.cached := cached;
      this.part := part;
    }

    /**
     `acquireSource` for a URL: success under a pin means the cached tarball has the
     pinned hash, whatever was on the mount or came over the wire; a failure leaves
     the cached tarball as it was, and a matching one is not fetched again.
     */
    method Acquire(sha: Content -> string, sum: string, net: Net) returns (ok: bool)
      modifies this, part
      ensures Kept(ok, cached, part.file) == Acquired(sha, sum, net, Kept(true, old(cached), old(part.file)))
      ensures ok ==> cached.Some? && (sum != "" ==> sha(cached.value) == sum)
      ensures !ok ==> cached == old(cached)
    {
      if sum != "" && cached.Some? && sha(cached.value) == sum {
        return true;
      }
      var fetched, _ := part.Fetch(net);
      if !fetched {
        return false;
      }
      SuccessHasFile(net, 1, None, 0);
      if sum != "" && sha(part.file.value) != sum {
        part.file := None;
        return false;
      }
      cached, part.file := part.file, None;
      return true;
    }
  }

  lemma {:induction false} SuccessHasFile(net: Net, attempt: nat, file: Option<Content>, hint: nat)
    requires 1 <= attempt <= MAX_ATTEMPTS + 1 && Attempts(net, attempt, file, hint).ok
    ensures Attempts(net, attempt, file, hint).file.Some?
    decreases MAX_ATTEMPTS + 1 - attempt
  {
    match React(net.reply(attempt, Have(file)), file)
    case Success(_) =>
    case Failure =>
    case Again(file', hint') => SuccessHasFile(net, attempt + 1, file', hint');
  }
}
