/**
 * Gmail messages as far as the package search reads them: the MIME part tree of
 * the payload, the headers, and the rule that picks the part whose text is
 * searched for tracking numbers.
 */
module Messages {
  import opened Common

  /**
   * A MIME part.  A part whose `parts` property is there (even an empty array,
   * which is truthy) is a Container; the others are leaves, with the
   * `body.data` text when there is one.
   */
  datatype Part =
    | Leaf(mimeType: Option<string>, data: Option<string>)
    | Container(mimeType: Option<string>, parts: seq<Part>)

  datatype Header = Header(name: string, value: string)

  /** `message.data`: the id, the internal date (milliseconds, read as a number), the payload and its headers. */
  datatype Message = Message(id: Option<string>, internalDate: int, payload: Part, headers: seq<Header>)

  const TextPlain: string := "text/plain"
  const TextHtml: string := "text/html"

  function MaxOf(s: seq<nat>): (r: nat)
    ensures forall i :: 0 <= i < |s| ==> s[i] <= r
  {
    if |s| == 0 then 0 else var m := MaxOf(s[1..]); if s[0] < m then m else s[0]
  }

  /** How many Container levels a part has above its deepest leaf. */
  function Height(p: Part): nat {
    match p
    case Leaf(_, _) => 0
    case Container(_, ps) => 1 + MaxOf(seq(|ps|, i requires 0 <= i < |ps| => Height(ps[i])))
  }

  function SeqHeight(ps: seq<Part>): nat {
    MaxOf(seq(|ps|, i requires 0 <= i < |ps| => Height(ps[i])))
  }

  /** Going down into one Container of a list lowers the height. */
  lemma DescentLowersHeight(ps: seq<Part>, k: nat)
    requires k < |ps| && ps[k].Container?
    ensures SeqHeight(ps[k].parts) < SeqHeight(ps)
  {
    var hs := seq(|ps|, i requires 0 <= i < |ps| => Height(ps[i]));
    assert hs[k] == Height(ps[k]);
  }

  /** `parts.find(p => p.parts)`, as the index of the first Container. */
  function FirstContainer(ps: seq<Part>): (r: Option<nat>)
    ensures r.Some? ==> r.value < |ps| && ps[r.value].Container? && forall j :: 0 <= j < r.value ==> ps[j].Leaf?
    ensures r.None? ==> forall j :: 0 <= j < |ps| ==> ps[j].Leaf?
  {
    if |ps| == 0 then None
    else if ps[0].Container? then Some(0)
    else match FirstContainer(ps[1..])
      case None => None
      case Some(k) => Some(k + 1)
  }

  /** The list the descent of `getNestedPart` stops at: follow the first Container until there is none. */
  function Deepest(ps: seq<Part>): (r: seq<Part>)
    ensures forall j :: 0 <= j < |r| ==> r[j].Leaf?
    decreases SeqHeight(ps)
  {
    match FirstContainer(ps)
    case None => ps
    case Some(k) =>
      DescentLowersHeight(ps, k);
      Deepest(ps[k].parts)
  }

  /** `parts.find(p => p.mimeType === m)`, as an index. */
  function FindMime(ps: seq<Part>, m: string): (r: Option<nat>)
    ensures r.Some? ==> r.value < |ps| && ps[r.value].mimeType == Some(m) && forall j :: 0 <= j < r.value ==> ps[j].mimeType != Some(m)
    ensures r.None? ==> forall j :: 0 <= j < |ps| ==> ps[j].mimeType != Some(m)
  {
    if |ps| == 0 then None
    else if ps[0].mimeType == Some(m) then Some(0)
    else match FindMime(ps[1..], m)
      case None => None
      case Some(k) => Some(k + 1)
  }

  /** The first text/plain part, else the first text/html part, else nothing. */
  function PickBody(ps: seq<Part>): (r: Option<Part>)
    ensures r.Some? ==> r.value in ps && (r.value.mimeType == Some(TextPlain) || r.value.mimeType == Some(TextHtml))
  {
    match FindMime(ps, TextPlain)
    case Some(k) => Some(ps[k])
    case None =>
      match FindMime(ps, TextHtml)
      case Some(k) => Some(ps[k])
      case None => None
  }

  /** A plain part always wins, and it is the first one; html is taken only when there is no plain part. */
  lemma PlainBeforeHtml(ps: seq<Part>)
    ensures (exists j :: 0 <= j < |ps| && ps[j].mimeType == Some(TextPlain)) ==>
      exists k :: 0 <= k < |ps| && PickBody(ps) == Some(ps[k]) && ps[k].mimeType == Some(TextPlain)
        && forall j :: 0 <= j < k ==> ps[j].mimeType != Some(TextPlain)
    ensures PickBody(ps).Some? && PickBody(ps).value.mimeType == Some(TextHtml) ==>
      forall j :: 0 <= j < |ps| ==> ps[j].mimeType != Some(TextPlain)
    ensures PickBody(ps).None? <==>
      forall j :: 0 <= j < |ps| ==> ps[j].mimeType != Some(TextPlain) && ps[j].mimeType != Some(TextHtml)
  {
    match FindMime(ps, TextPlain)
    case Some(k) =>
    case None =>
      match FindMime(ps, TextHtml)
      case Some(k) =>
        assert ps[k].mimeType == Some(TextHtml);
      case None =>
  }

  /** What `getNestedPart(parts)` answers. */
  function NestedPart(ps: seq<Part>): (r: Option<Part>)
    ensures r.Some? ==> r.value.Leaf? && (r.value.mimeType == Some(TextPlain) || r.value.mimeType == Some(TextHtml))
  {
    PickBody(Deepest(ps))
  }

  /** `getPart(payload)`: a leaf payload is its own body part, a Container is searched. */
  function BodyPart(payload: Part): (r: Option<Part>)
    ensures payload.Leaf? ==> r == Some(payload)
    ensures payload.Container? ==> r == NestedPart(payload.parts)
    ensures r.Some? ==> r.value.Leaf?
  {
    match payload
    case Leaf(_, _) => Some(payload)
    case Container(_, ps) => NestedPart(ps)
  }

  /** A list without Containers is not descended into: the pick is made among its own parts. */
  lemma FlatListIsSearchedInPlace(ps: seq<Part>)
    requires forall j :: 0 <= j < |ps| ==> ps[j].Leaf?
    ensures NestedPart(ps) == PickBody(ps)
  {
  }

  /** Only the first Container is followed: the parts after it are never looked at. */
  lemma {:induction false} OnlyFirstContainerIsFollowed(before: seq<Part>, c: Part, after1: seq<Part>, after2: seq<Part>)
    requires forall j :: 0 <= j < |before| ==> before[j].Leaf?
    requires c.Container?
    ensures NestedPart(before + [c] + after1) == NestedPart(before + [c] + after2) == NestedPart(c.parts)
  {
    FirstContainerAfterLeaves(before, c, after1);
    FirstContainerAfterLeaves(before, c, after2);
  }

  lemma {:induction false} FirstContainerAfterLeaves(before: seq<Part>, c: Part, after: seq<Part>)
    requires forall j :: 0 <= j < |before| ==> before[j].Leaf?
    requires c.Container?
    ensures FirstContainer(before + [c] + after) == Some(|before|)
    ensures Deepest(before + [c] + after) == Deepest(c.parts)
  {
    var ps := before + [c] + after;
    assert ps[|before|] == c;
    if |before| == 0 {
      assert FirstContainer(ps) == Some(0);
    } else {
      assert ps[1..] == before[1..] + [c] + after;
      FirstContainerAfterLeaves(before[1..], c, after);
      assert ps[0].Leaf?;
    }
  }

  /** `headers.find(h => h.name === 'From').value`; None when there is no From header. */
  function FromHeader(headers: seq<Header>): (r: Option<string>)
    ensures r.Some? <==> exists j :: 0 <= j < |headers| && headers[j].name == "From"
    ensures r.Some? ==> exists j :: 0 <= j < |headers| && headers[j] == Header("From", r.value)
  {
    if |headers| == 0 then None
    else if headers[0].name == "From" then Some(headers[0].value)
    else
      var r := FromHeader(headers[1..]);
      assert forall j :: 1 <= j < |headers| ==> headers[j] == headers[1..][j - 1];
      r
  }

  /**
   * The text transforms the body goes through, as parameters: base64url decoding,
   * textversionjs' HTML-to-text, and the removal of links by regular expression.
   */
  datatype TextCodecs = TextCodecs(decode: string -> string, textVersion: string -> string, stripLinks: string -> string)

  /** One page of `users.messages.list`: the message ids, if the page has a messages field, and the next page's token. */
  datatype Page = Page(messages: Option<seq<string>>, nextPageToken: Option<string>)

  /** `Promise.all(ids.map(id => users.messages.get(id)))`: every message, or the first failure. */
  function FetchAll(ids: seq<string>, get: string -> Result<Message>): (r: Result<seq<Message>>)
    ensures r.Ok? ==> |r.value| == |ids| && forall i :: 0 <= i < |ids| ==> get(ids[i]) == Ok(r.value[i])
    ensures r.Err? ==> exists i :: 0 <= i < |ids| && get(ids[i]).Err?
  {
    if |ids| == 0 then Ok([])
    else match get(ids[0])
      case Err(e) => Err(e)
      case Ok(m) =>
        match FetchAll(ids[1..], get)
        case Err(e) =>
          var i :| 0 <= i < |ids[1..]| && get(ids[1..][i]).Err?;
          assert get(ids[i + 1]).Err?;
          Err(e)
        case Ok(ms) => Ok([m] + ms)
  }

  /** Messages in ascending order of internal date. */
  predicate Ascending(ms: seq<Message>) {
    forall i, j :: 0 <= i < j < |ms| ==> ms[i].internalDate <= ms[j].internalDate
  }

  /** No message of the list is older than `d`. */
  predicate NoneOlder(d: int, ms: seq<Message>) {
    forall i :: 0 <= i < |ms| ==> d <= ms[i].internalDate
  }

  /** One insertion step of the sort. */
  function Insert(m: Message, ms: seq<Message>): (r: seq<Message>)
    ensures multiset(r) == multiset(ms) + multiset{m}
  {
    if |ms| == 0 then [m]
    else if m.internalDate <= ms[0].internalDate then [m] + ms
    else
      assert ms == [ms[0]] + ms[1..];
      [ms[0]] + Insert(m, ms[1..])
  }

  lemma {:induction false} InsertNoneOlder(d: int, m: Message, ms: seq<Message>)
    requires NoneOlder(d, ms) && d <= m.internalDate
    ensures NoneOlder(d, Insert(m, ms))
  {
    if |ms| > 0 && m.internalDate > ms[0].internalDate {
      InsertNoneOlder(d, m, ms[1..]);
    }
  }

  lemma {:induction false} InsertAscending(m: Message, ms: seq<Message>)
    requires Ascending(ms)
    ensures Ascending(Insert(m, ms))
  {
    if |ms| > 0 && m.internalDate > ms[0].internalDate {
      InsertAscending(m, ms[1..]);
      InsertNoneOlder(ms[0].internalDate, m, ms[1..]);
      var r := Insert(m, ms);
      assert r == [ms[0]] + Insert(m, ms[1..]);
    }
  }

  /**
   * `messages.sort((a, b) => a.data.internalDate > b.data.internalDate ? 1 : -1)`:
   * the same messages, oldest first.
   */
  function SortByDate(ms: seq<Message>): (r: seq<Message>)
    ensures Ascending(r)
    ensures multiset(r) == multiset(ms)
  {
    if |ms| == 0 then []
    else
      assert ms == [ms[0]] + ms[1..];
      InsertAscending(ms[0], SortByDate(ms[1..]));
      Insert(ms[0], SortByDate(ms[1..]))
  }

  /**
   * The From-header patterns, as parameters: the display name before the address,
   * and the mail domain; each None when its pattern does not match.
   */
  datatype FromPatterns = FromPatterns(name: string -> Option<string>, domain: string -> Option<string>)

  /**
   * Gmail, as parameters indexed by the attempt (the access token changes when it is
   * refreshed): `users.messages.list` for a query and a page token,
   * `users.messages.get` for an id, and the token refresh.
   */
  datatype Gmail = Gmail(
    list: (nat, string, Option<string>) -> Result<Page>,
    get: (nat, string) -> Result<Message>,
    refreshToken: nat -> Result<()>)

  /** The message Gmail's client rejects a stale access token with. */
  const InvalidCredentials: string := "Invalid Credentials"

  /**
   * The retry on a stale token over tries `k`, `k + 1`, ...: `attempt(k, s)` is try
   * `k` from state `s`; a failure reading "Invalid Credentials" refreshes the token
   * and tries again, at most `retries` more times; any other outcome is final, and
   * a failed refresh ends with the refresh's failure.
   */
  function Retrying<T, S>(attempt: (nat, S) -> (Result<T>, S), refresh: nat -> Result<()>, s: S, k: nat, retries: nat): (Result<T>, S)
    decreases retries
  {
    var (r, s1) := attempt(k, s);
    if r == Err(InvalidCredentials) && retries > 0 then
      match refresh(k)
      case Err(x) => (Err(x), s1)
      case Ok(_) => Retrying(attempt, refresh, s1, k + 1, retries - 1)
    else (r, s1)
  }

  /** Only a stale token is retried: any other outcome of a try is the answer. */
  lemma OnlyInvalidCredentialsIsRetried<T, S>(attempt: (nat, S) -> (Result<T>, S), refresh: nat -> Result<()>, s: S, k: nat, retries: nat)
    requires attempt(k, s).0 != Err(InvalidCredentials)
    ensures Retrying(attempt, refresh, s, k, retries) == attempt(k, s)
  {
  }

  /**
   * Tries that keep failing with a stale token, each refresh succeeding, are all
   * made: after `j` of them the answer is that of try `k + j`.
   */
  lemma {:induction false} StaleTriesAreRetried<T, S>(attempt: (nat, S) -> (Result<T>, S), refresh: nat -> Result<()>, s: S, k: nat, retries: nat, j: nat)
    requires j <= retries
    requires forall i :: k <= i < k + j ==> refresh(i).Ok? && attempt(i, s) == (Err(InvalidCredentials), s)
    ensures Retrying(attempt, refresh, s, k, retries) == Retrying(attempt, refresh, s, k + j, retries - j)
    decreases j
  {
    if j > 0 {
      StaleTriesAreRetried(attempt, refresh, s, k + 1, retries - 1, j - 1);
    }
  }

  /** A failed refresh ends the retrying with its own failure. */
  lemma FailedRefreshEnds<T, S>(attempt: (nat, S) -> (Result<T>, S), refresh: nat -> Result<()>, s: S, k: nat, retries: nat)
    requires attempt(k, s).0 == Err(InvalidCredentials) && retries > 0 && refresh(k).Err?
    ensures Retrying(attempt, refresh, s, k, retries) == (Err(refresh(k).error), attempt(k, s).1)
  {
  }
}
