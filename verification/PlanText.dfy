/** The order in which the planner writes nodes, and the identifier text each node gets. */
module PlanText {
  import opened Common
  import opened Plan

  function Stage(id: NodeId): nat {
    match id
    case Normalize => 0
    case Policy => 1
    case AuthSession(_) => 2
    case CachePre(_, _) => 3
    case Http => 4
    case AuthCsrf => 5
    case AuthForm => 6
    case Crawl => 7
    case Alternatives => 8
    case Reader(_, _) => 9
    case Browser => 10
    case Document(_, _) => 11
    case Media(_, _) => 12
    case Archive => 13
    case Structured => 14
    case RagProducer => 15
    case RenderProducer => 16
    case CachePost(_, _) => 17
    case Other(_) => 18
  }

  function Index(id: NodeId): nat {
    match id
    case CachePre(i, _) => i
    case Reader(i, _) => i
    case Document(i, _) => i
    case Media(i, _) => i
    case CachePost(i, _) => i
    case _ => 0
  }

  /** The order in which the planner writes nodes. */
  predicate Before(a: NodeId, b: NodeId) {
    Stage(a) < Stage(b) || (Stage(a) == Stage(b) && Index(a) < Index(b))
  }

  const SESSIONS := ["login_session", "oauth", "sso", "private_workspace"]

  /** The identities the planner can write. */
  predicate Nameable(id: NodeId) {
    !id.Other? && (id.AuthSession? ==> id.capability in SESSIONS)
  }

  function Decimal(n: nat): (r: string)
    ensures |r| > 0 && forall i :: 0 <= i < |r| ==> '0' <= r[i] <= '9'
  {
    if n < 10 then [Digit(n)] else Decimal(n / 10) + [Digit(n % 10)]
  }

  function Digit(n: nat): char
    requires n < 10
  {
    "0123456789"[n]
  }

  /** Underscores become hyphens. */
  function Hyphenated(s: string): string {
    if s == "" then "" else [if s[0] == '_' then '-' else s[0]] + Hyphenated(s[1..])
  }

  function Numbered(index: nat, capability: string): string {
    Decimal(index) + "-" + Hyphenated(capability)
  }

  function Text(id: NodeId): string {
    match id
    case Normalize => "normalize"
    case Policy => "policy"
    case AuthSession(c) => "auth-" + Hyphenated(c)
    case CachePre(i, c) => "cache-pre-" + Numbered(i, c)
    case Http => "http"
    case AuthCsrf => "auth-csrf-token"
    case AuthForm => "auth-form-submit"
    case Crawl => "crawl"
    case Alternatives => "alternatives"
    case Reader(i, c) => "reader-" + Numbered(i, c)
    case Browser => "browser"
    case Document(i, c) => "document-" + Numbered(i, c)
    case Media(i, c) => "media-" + Numbered(i, c)
    case Archive => "archive"
    case Structured => "structured"
    case RagProducer => "cache-producer-rag-document"
    case RenderProducer => "cache-producer-browser-render"
    case CachePost(i, c) => "cache-post-" + Numbered(i, c)
    case Other(name) => name
  }

  /** Read the stage back from the text. */
  function StageOf(text: string): nat {
    if |text| < 4 then 18
    else match text[0]
      case 'n' => 0
      case 'p' => 1
      case 'h' => 4
      case 'r' => 9
      case 'b' => 10
      case 'd' => 11
      case 'm' => 12
      case 's' => 14
      case 'a' =>
        if text[1] == 'l' then 8
        else if text[1] == 'r' then 13
        else if |text| < 6 then 18
        else if text[5] == 'c' then 5
        else if text[5] == 'f' then 6
        else 2
      case 'c' =>
        if text[1] == 'r' then 7
        else if |text| < 9 then 18
        else if text[7] == 'o' then 17
        else if text[8] == 'e' then 3
        else if |text| < 16 then 18
        else if text[15] == 'r' then 15
        else 16
      case _ => 18
  }

  lemma StageFromText(id: NodeId)
    requires Nameable(id)
    ensures StageOf(Text(id)) == Stage(id)
  {
    match id
    case AuthSession(c) => SessionStage(c);
    case CachePre(i, c) => CacheStage(Numbered(i, c));
    case Reader(i, c) => ReaderStage(Numbered(i, c));
    case Document(i, c) => ExtractorStage(Numbered(i, c));
    case Media(i, c) => ExtractorStage(Numbered(i, c));
    case CachePost(i, c) => CacheStage(Numbered(i, c));
    case _ => FixedText(id);
  }

  /** The identifiers that do not depend on a number or a capability. */
  predicate Fixed(id: NodeId) {
    !id.AuthSession? && !id.CachePre? && !id.Reader? && !id.Document? && !id.Media? && !id.CachePost? && !id.Other?
  }

  lemma FixedText(id: NodeId)
    requires Fixed(id)
    ensures StageOf(Text(id)) == Stage(id)
  {
    if id.RagProducer? || id.RenderProducer? || id.AuthCsrf? || id.AuthForm? {
      LongText(id);
    }
  }

  lemma LongText(id: NodeId)
    requires id.RagProducer? || id.RenderProducer? || id.AuthCsrf? || id.AuthForm?
    ensures StageOf(Text(id)) == Stage(id)
  {
  }

  lemma CacheStage(rest: string)
    ensures StageOf("cache-pre-" + rest) == 3 && StageOf("cache-post-" + rest) == 17
  {
    var pre, post := "cache-pre-" + rest, "cache-post-" + rest;
    assert pre[0] == 'c' && pre[1] == 'a' && pre[7] == 'r' && pre[8] == 'e';
    assert post[0] == 'c' && post[1] == 'a' && post[7] == 'o';
  }

  lemma ReaderStage(rest: string)
    ensures StageOf("reader-" + rest) == 9
  {
    assert ("reader-" + rest)[0] == 'r';
  }

  lemma ExtractorStage(rest: string)
    ensures StageOf("document-" + rest) == 11 && StageOf("media-" + rest) == 12
  {
    assert ("document-" + rest)[0] == 'd' && ("media-" + rest)[0] == 'm';
  }

  lemma SessionStage(c: string)
    requires c in SESSIONS
    ensures StageOf("auth-" + Hyphenated(c)) == 2
  {
    SessionText(c);
    AuthStage(Hyphenated(c));
  }

  lemma AuthStage(rest: string)
    requires |rest| > 0 && rest[0] != 'c' && rest[0] != 'f'
    ensures StageOf("auth-" + rest) == 2
  {
    var text := "auth-" + rest;
    assert text[0] == 'a' && text[1] == 'u' && text[5] == rest[0];
  }

  lemma SessionText(c: string)
    requires c in SESSIONS
    ensures |c| > 1 && |Hyphenated(c)| > 1 && Hyphenated(c)[0] == c[0] && c[0] != 'c' && c[0] != 'f'
  {
    SessionStart(c);
    HyphenatedStart(c);
  }

  lemma SessionStart(c: string)
    requires c in SESSIONS
    ensures |c| > 1 && c[0] in ['l', 'o', 's', 'p']
  {
  }

  lemma {:induction false} HyphenatedStart(c: string)
    requires |c| > 1 && c[0] != '_'
    ensures |Hyphenated(c)| > 1 && Hyphenated(c)[0] == c[0]
  {
    assert Hyphenated(c[1..]) == [if c[1..][0] == '_' then '-' else c[1..][0]] + Hyphenated(c[1..][1..]);
  }

  lemma DigitInjective(a: nat, b: nat)
    requires a < 10 && b < 10 && Digit(a) == Digit(b)
    ensures a == b
  {
  }

  lemma {:induction false} DecimalInjective(a: nat, b: nat)
    requires Decimal(a) == Decimal(b)
    ensures a == b
  {
    var s, t := Decimal(a), Decimal(b);
    if a >= 10 && b >= 10 {
      assert s[..|s| - 1] == Decimal(a / 10) && t[..|t| - 1] == Decimal(b / 10);
      assert s[|s| - 1] == Digit(a % 10) && t[|t| - 1] == Digit(b % 10);
      DecimalInjective(a / 10, b / 10);
      DigitInjective(a % 10, b % 10);
    } else if a < 10 && b < 10 {
      assert s[0] == Digit(a) && t[0] == Digit(b);
      DigitInjective(a, b);
    }
  }

  /** The first hyphen ends the number, so numbered texts with different numbers differ. */
  lemma NumberedInjective(i: nat, c: string, j: nat, d: string)
    requires Numbered(i, c) == Numbered(j, d)
    ensures i == j
  {
    var s, t := Numbered(i, c), Numbered(j, d);
    var m, n := |Decimal(i)|, |Decimal(j)|;
    assert s[m] == '-' && t[n] == '-';
    assert s[..m] == Decimal(i) && t[..n] == Decimal(j);
    assert forall k :: 0 <= k < m ==> s[k] == Decimal(i)[k];
    assert forall k :: 0 <= k < n ==> t[k] == Decimal(j)[k];
    assert m == n;
    DecimalInjective(i, j);
  }

  function NumberAt(id: NodeId): nat {
    match id
    case CachePre(_, _) => 10
    case Reader(_, _) => 7
    case Document(_, _) => 9
    case Media(_, _) => 6
    case CachePost(_, _) => 11
    case _ => 0
  }

  /** Identities written one after the other have different texts. */
  lemma TextSeparates(a: NodeId, b: NodeId)
    requires Nameable(a) && Nameable(b) && Before(a, b)
    ensures Text(a) != Text(b)
  {
    StageFromText(a);
    StageFromText(b);
    if Text(a) == Text(b) {
      var k := NumberAt(a);
      assert Text(a)[k..] == Numbered(Index(a), a.capability);
      assert Text(b)[k..] == Numbered(Index(b), b.capability);
      NumberedInjective(Index(a), a.capability, Index(b), b.capability);
      assert false;
    }
  }
}
