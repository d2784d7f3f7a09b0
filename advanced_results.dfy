/**
 * The list middleware (backend/middleware/advancedResults.js): it turns the
 * parsed query string of a list request into a find filter, a text search, a
 * projection, a sort and a page window, and reports the page links.
 *
 * The store itself (counting and fetching) is not part of the model: the
 * number of matching documents is a parameter, and the plan records what is
 * handed to the store.
 */
module AdvancedResults {
  import opened Wrappers
  import opened Text
  import opened StudentModel
  import FeeLedger

  /** A query-string value as the parser hands it over: `k=v`, or `k[op]=v` pairs. */
  datatype Param = Text(text: string) | Nested(entries: map<string, string>)

  /** One condition of the find filter. */
  datatype Condition =
    | Match(param: Param)     // a condition taken from the query string, passed on as is
    | GreaterThan(bound: int) // `{ $gt: bound }`
    | AtMost(bound: int)      // `{ $lte: bound }`

  datatype Sort = Unsorted | SortBy(fields: string)

  /** What is handed to the store: `find(filter)`, then select, sort, skip and limit. */
  datatype Plan = Plan(
    filter: map<string, Condition>,
    anyOf: seq<(string, string)>,   // the `$or` of case-insensitive matches, (field, pattern)
    select: Option<string>,
    sort: Sort,
    skip: int,
    limit: int)

  datatype Link = Link(page: int, limit: int)

  /** The `advancedResults` object: `count` is the number of matches, not the page length. */
  datatype Response = Response(count: nat, next: Option<Link>, prev: Option<Link>)

  datatype Outcome = Outcome(plan: Plan, response: Response)

  /**
   * A request that makes the middleware throw (a `select` or `sort` that is
   * not a string, or an object as search pattern, which the store refuses)
   * is never answered.
   */
  datatype Failure = Unanswered

  /** The query keys that are never turned into equality conditions. */
  const ReservedKeys: seq<string> :=
    ["select", "sort", "page", "limit", "_sort", "_limit", "search", "feeStatus", "sortByFees", "q"]

  /** JavaScript truthiness of `req.query[key]`: present and, for a string, non-empty. */
  predicate Truthy(query: map<string, Param>, key: string) {
    key in query && (query[key].Text? ==> query[key].text != "")
  }

  // ---------------------------------------------------------------------
  // Operator rewrite: every whole word gt, gte, lt, lte or in gets a `$`.
  // ---------------------------------------------------------------------

  predicate IsOperator(w: string) {
    w == "gt" || w == "gte" || w == "lt" || w == "lte" || w == "in"
  }

  /** The maximal run of word characters at the start of `s`. */
  function WordPrefix(s: string): (w: string)
    ensures |w| <= |s| && w == s[..|w|]
    ensures forall i :: 0 <= i < |w| ==> IsWordChar(w[i])
    ensures |w| < |s| ==> !IsWordChar(s[|w|])
  {
    if s != [] && IsWordChar(s[0]) then [s[0]] + WordPrefix(s[1..]) else []
  }

  /** A whole word as the replacement leaves it. */
  function Marked(w: string): string {
    if IsOperator(w) then "$" + w else w
  }

  /** The regular-expression replacement of the operator words, applied to one string. */
  function RewriteOperators(s: string): string
    decreases |s|
  {
    if s == [] then []
    else if !IsWordChar(s[0]) then [s[0]] + RewriteOperators(s[1..])
    else
      var w := WordPrefix(s);
      Marked(w) + RewriteOperators(s[|w|..])
  }

  /** Drops the `$` in front of every whole operator word: the inverse of the rewrite. */
  function RestoreOperators(s: string): string
    decreases |s|
  {
    if s == [] then []
    else if !IsWordChar(s[0]) then
      var w := WordPrefix(s[1..]);
      if s[0] == '$' && IsOperator(w) then w + RestoreOperators(s[1 + |w|..])
      else [s[0]] + RestoreOperators(s[1..])
    else
      var w := WordPrefix(s);
      w + RestoreOperators(s[|w|..])
  }

  /** A word run followed by a separator (or nothing) is read back whole. */
  lemma {:induction false} WordPrefixOfWord(w: string, x: string)
    requires forall i :: 0 <= i < |w| ==> IsWordChar(w[i])
    requires x == [] || !IsWordChar(x[0])
    ensures WordPrefix(w + x) == w
  {
    if w != [] {
      assert (w + x)[1..] == w[1..] + x;
      WordPrefixOfWord(w[1..], x);
    } else {
      assert w + x == x;
    }
  }

  /** The word prefix of `a` is unaffected by what follows once `a` has a non-word character. */
  lemma {:induction false} WordPrefixOfPrefix(a: string, x: string)
    requires |WordPrefix(a)| < |a|
    ensures WordPrefix(a + x) == WordPrefix(a)
  {
    if IsWordChar(a[0]) {
      assert (a + x)[1..] == a[1..] + x;
      WordPrefixOfPrefix(a[1..], x);
    }
  }

  /** The rewrite keeps a leading separator in place. */
  lemma RewriteKeepsSeparator(t: string)
    requires t == [] || !IsWordChar(t[0])
    ensures RewriteOperators(t) == [] || !IsWordChar(RewriteOperators(t)[0])
  {
  }

  /** A rewritten string never starts with a whole operator word. */
  lemma RewriteHead(t: string)
    ensures !IsOperator(WordPrefix(RewriteOperators(t)))
  {
    if t != [] && IsWordChar(t[0]) {
      var w := WordPrefix(t);
      RewriteKeepsSeparator(t[|w|..]);
      if !IsOperator(w) {
        WordPrefixOfWord(w, RewriteOperators(t[|w|..]));
      }
    }
  }

  /** The restore undoes the rewrite of a leading separator, given that it undoes the rest. */
  lemma RestoreRewriteSeparator(s: string)
    requires s != [] && !IsWordChar(s[0])
    requires RestoreOperators(RewriteOperators(s[1..])) == s[1..]
    ensures RestoreOperators(RewriteOperators(s)) == s
  {
    var tail := RewriteOperators(s[1..]);
    assert RewriteOperators(s) == [s[0]] + tail;
    assert ([s[0]] + tail)[1..] == tail;
    RewriteHead(s[1..]);
  }

  /** One step of the rewrite at a leading operator word. */
  lemma RewriteAtOperator(s: string, w: string)
    requires w == WordPrefix(s) && w != [] && IsOperator(w)
    ensures RewriteOperators(s) == "$" + w + RewriteOperators(s[|w|..])
  {
    assert Marked(w) == "$" + w;
  }

  /** One step of the restore at a `$` that marks an operator word. */
  lemma RestoreAtOperator(w: string, tail: string)
    requires IsOperator(w) && forall i :: 0 <= i < |w| ==> IsWordChar(w[i])
    requires tail == [] || !IsWordChar(tail[0])
    ensures RestoreOperators("$" + w + tail) == w + RestoreOperators(tail)
  {
    var r := "$" + w + tail;
    assert r[1..] == w + tail;
    WordPrefixOfWord(w, tail);
    assert r[1 + |w|..] == tail;
  }

  /** The restore undoes the rewrite of a leading operator word, given that it undoes the rest. */
  lemma RestoreRewriteOperator(s: string, w: string, rest: string)
    requires w == WordPrefix(s) && w != [] && IsOperator(w) && rest == s[|w|..]
    requires RestoreOperators(RewriteOperators(rest)) == rest
    ensures RestoreOperators(RewriteOperators(s)) == s
  {
    RewriteAtOperator(s, w);
    RewriteKeepsSeparator(rest);
    RestoreAtOperator(w, RewriteOperators(rest));
    assert s == w + rest;
  }

  /** The restore undoes the rewrite of a leading ordinary word, given that it undoes the rest. */
  lemma RestoreRewriteOrdinary(s: string, w: string, rest: string)
    requires w == WordPrefix(s) && w != [] && !IsOperator(w) && rest == s[|w|..]
    requires RestoreOperators(RewriteOperators(rest)) == rest
    ensures RestoreOperators(RewriteOperators(s)) == s
  {
    var tail := RewriteOperators(rest);
    assert RewriteOperators(s) == w + tail;
    RewriteKeepsSeparator(rest);
    WordPrefixOfWord(w, tail);
    assert (w + tail)[|w|..] == tail;
    assert RestoreOperators(w + tail) == w + RestoreOperators(tail);
    assert s == w + rest;
  }

  /** Undoing the rewrite gives the original string back, so no information is lost. */
  lemma {:induction false} RestoreRewrite(s: string)
    ensures RestoreOperators(RewriteOperators(s)) == s
    decreases |s|
  {
    if s == [] {
    } else if !IsWordChar(s[0]) {
      RestoreRewrite(s[1..]);
      RestoreRewriteSeparator(s);
    } else {
      var w := WordPrefix(s);
      RestoreRewrite(s[|w|..]);
      if IsOperator(w) {
        RestoreRewriteOperator(s, w, s[|w|..]);
      } else {
        RestoreRewriteOrdinary(s, w, s[|w|..]);
      }
    }
  }

  /** A single word with no operator in it is left as it is by the restore. */
  lemma RestoreWord(w: string)
    requires forall i :: 0 <= i < |w| ==> IsWordChar(w[i])
    ensures RestoreOperators(w) == w
  {
    if w != [] {
      WordPrefixOfWord(w, []);
      assert w + [] == w;
    }
  }

  /** Distinct strings stay distinct under the rewrite, so no two query keys merge. */
  lemma RewriteInjective()
    ensures forall a, b :: RewriteOperators(a) == RewriteOperators(b) ==> a == b
  {
    forall a, b | RewriteOperators(a) == RewriteOperators(b) ensures a == b {
      RestoreRewrite(a);
      RestoreRewrite(b);
    }
  }

  lemma Regroup(m: string, x: string, c: char, y: string)
    ensures m + (x + [c] + y) == (m + x) + [c] + y
  {
  }

  /** The split at a leading separator of `a`, given the split of the rest of `a`. */
  lemma RewriteSplitSeparator(a: string, c: char, b: string)
    requires !IsWordChar(c) && a != [] && !IsWordChar(a[0])
    requires RewriteOperators(a[1..] + [c] + b) == RewriteOperators(a[1..]) + [c] + RewriteOperators(b)
    ensures RewriteOperators(a + [c] + b) == RewriteOperators(a) + [c] + RewriteOperators(b)
  {
    var s := a + [c] + b;
    assert s[1..] == a[1..] + [c] + b;
    var x, y := RewriteOperators(a[1..]), RewriteOperators(b);
    calc {
      RewriteOperators(s);
      [a[0]] + RewriteOperators(s[1..]);
      [a[0]] + (x + [c] + y);
      { Regroup([a[0]], x, c, y); }
      ([a[0]] + x) + [c] + y;
    }
  }

  /** The split when `a` is one whole word. */
  lemma RewriteSplitWord(a: string, c: char, b: string)
    requires !IsWordChar(c) && a != [] && WordPrefix(a) == a
    ensures RewriteOperators(a + [c] + b) == RewriteOperators(a) + [c] + RewriteOperators(b)
  {
    var s := a + [c] + b;
    WordPrefixOfWord(a, [c] + b);
    assert s == a + ([c] + b);
    assert s[|a|..] == [c] + b;
    assert ([c] + b)[1..] == b;
    assert a[|a|..] == [];
  }

  /** The split after the leading word of `a`, given the split of the rest of `a`. */
  lemma RewriteSplitInner(a: string, w: string, c: char, b: string)
    requires !IsWordChar(c) && a != [] && IsWordChar(a[0]) && w == WordPrefix(a) && |w| < |a|
    requires RewriteOperators(a[|w|..] + [c] + b) == RewriteOperators(a[|w|..]) + [c] + RewriteOperators(b)
    ensures RewriteOperators(a + [c] + b) == RewriteOperators(a) + [c] + RewriteOperators(b)
  {
    var s := a + ([c] + b);
    var x, y := RewriteOperators(a[|w|..]), RewriteOperators(b);
    WordPrefixOfPrefix(a, [c] + b);
    assert s[|w|..] == a[|w|..] + [c] + b;
    assert a + [c] + b == s;
    var m := Marked(w);
    calc {
      RewriteOperators(s);
      m + RewriteOperators(s[|w|..]);
      m + (x + [c] + y);
      { Regroup(m, x, c, y); }
      (m + x) + [c] + y;
    }
  }

  /** The rewrite works word by word: it distributes over any non-word separator. */
  lemma {:induction false} RewriteSplit(a: string, c: char, b: string)
    requires !IsWordChar(c)
    ensures RewriteOperators(a + [c] + b) == RewriteOperators(a) + [c] + RewriteOperators(b)
    decreases |a|
  {
    if a == [] {
      assert a + [c] + b == [c] + b;
      assert ([c] + b)[1..] == b;
    } else if !IsWordChar(a[0]) {
      RewriteSplit(a[1..], c, b);
      RewriteSplitSeparator(a, c, b);
    } else {
      var w := WordPrefix(a);
      if |w| == |a| {
        RewriteSplitWord(a, c, b);
      } else {
        RewriteSplit(a[|w|..], c, b);
        RewriteSplitInner(a, w, c, b);
      }
    }
  }

  /** A single word: an operator word gets its `$`, any other word is kept. */
  lemma RewriteWord(w: string)
    requires w != [] && forall i :: 0 <= i < |w| ==> IsWordChar(w[i])
    ensures RewriteOperators(w) == if IsOperator(w) then "$" + w else w
  {
    WordPrefixOfWord(w, []);
    assert w + [] == w;
    assert w[|w|..] == [];
    assert RewriteOperators(w) == Marked(w) + RewriteOperators([]);
  }

  function RewriteEntries(m: map<string, string>): (r: map<string, string>)
    ensures forall k :: k in m <==> RewriteOperators(k) in r
    ensures forall k :: k in m ==> r[RewriteOperators(k)] == RewriteOperators(m[k])
  {
    RewriteInjective();
    map k | k in m :: RewriteOperators(k) := RewriteOperators(m[k])
  }

  function RewriteParam(p: Param): Param {
    match p
    case Text(v) => Text(RewriteOperators(v))
    case Nested(m) => Nested(RewriteEntries(m))
  }

  /** The `JSON.stringify` / replace / `JSON.parse` round of the remaining query. */
  function Rewritten(m: map<string, Param>): (r: map<string, Condition>)
    ensures forall k :: k in m <==> RewriteOperators(k) in r
    ensures forall k :: k in m ==> r[RewriteOperators(k)] == Match(RewriteParam(m[k]))
  {
    RewriteInjective();
    map k | k in m :: RewriteOperators(k) := Match(RewriteParam(m[k]))
  }

  // ---------------------------------------------------------------------
  // The parts of the plan, each as a function of the request.
  // ---------------------------------------------------------------------

  /** The query without its reserved keys. */
  function Stripped(query: map<string, Param>): map<string, Param> {
    map k | k in query && k !in ReservedKeys :: query[k]
  }

  /** The balance condition `feeStatus` asks for, on the Student collection only. */
  function FeeStatusCondition(modelName: string, query: map<string, Param>): Option<Condition> {
    if modelName == "Student" && Truthy(query, "feeStatus") then
      if query["feeStatus"] == Text("pending") then Some(GreaterThan(0))
      else if query["feeStatus"] == Text("completed") then Some(AtMost(0))
      else None
    else None
  }

  function FilterOf(modelName: string, query: map<string, Param>): map<string, Condition> {
    var f := Rewritten(Stripped(query));
    match FeeStatusCondition(modelName, query)
    case Some(c) => f["fee.balance" := c]
    case None => f
  }

  /** The `$or` of the text search; `None` when the pattern is an object the store refuses. */
  function AnyOf(modelName: string, query: map<string, Param>): Option<seq<(string, string)>> {
    if Truthy(query, "q") && modelName == "Student" then
      match query["q"]
      case Text(pattern) =>
        Some([("firstName", pattern), ("lastName", pattern), ("rollNumber", pattern), ("phoneNumber", pattern)])
      case Nested(_) => None
    else Some([])
  }

  /** `split(',').join(' ')`. */
  function CommasToSpaces(s: string): (r: string)
    ensures |r| == |s|
    ensures forall i :: 0 <= i < |s| ==> r[i] == (if s[i] == ',' then ' ' else s[i])
  {
    if s == [] then [] else [if s[0] == ',' then ' ' else s[0]] + CommasToSpaces(s[1..])
  }

  /** The projection; `None` when `select` is an object and `split` throws. */
  function SelectOf(query: map<string, Param>): Option<Option<string>> {
    if Truthy(query, "select") then
      match query["select"]
      case Text(s) => Some(Some(CommasToSpaces(s)))
      case Nested(_) => None
    else Some(None)
  }

  /** The sort; `None` when `sort` is consulted and is an object. */
  function SortOf(modelName: string, query: map<string, Param>): Option<Sort> {
    if Truthy(query, "sortByFees") && modelName == "Student" then
      if query["sortByFees"] == Text("desc") then Some(SortBy("-fee.balance"))
      else if query["sortByFees"] == Text("asc") then Some(SortBy("fee.balance"))
      else Some(Unsorted)
    else if Truthy(query, "sort") then
      match query["sort"]
      case Text(s) => Some(SortBy(CommasToSpaces(s)))
      case Nested(_) => None
    else Some(SortBy("-createdAt"))
  }

  /** `parseInt(req.query[key], 10)`; an object reads as "[object Object]", which is not a number. */
  function ParamInt(query: map<string, Param>, key: string): Option<int> {
    if key in query && query[key].Text? then ParseInt(query[key].text) else None
  }

  /** `parseInt(...) || fallback`: a missing, unreadable or zero value gives the fallback. */
  function IntOr(v: Option<int>, fallback: int): (r: int)
    ensures v.Some? && v.value != 0 ==> r == v.value
    ensures v.None? || v.value == 0 ==> r == fallback
  {
    if v.Some? && v.value != 0 then v.value else fallback
  }

  function PageOf(query: map<string, Param>): int {
    IntOr(ParamInt(query, "page"), 1)
  }

  function LimitOf(query: map<string, Param>): int {
    IntOr(ParamInt(query, "limit"), 25)
  }

  /** The first index of a page. */
  function StartIndex(page: int, limit: int): int {
    (page - 1) * limit
  }

  /** The page links: `next` when matches remain after this page, `prev` when this page skips some. */
  function Links(page: int, limit: int, total: nat): (r: Response)
    ensures r.count == total
    ensures r.next.Some? <==> page * limit < total
    ensures r.prev.Some? <==> StartIndex(page, limit) > 0
    ensures r.next.Some? ==> r.next.value == Link(page + 1, limit)
    ensures r.prev.Some? ==> r.prev.value == Link(page - 1, limit)
  {
    Response(total,
             if page * limit < total then Some(Link(page + 1, limit)) else None,
             if StartIndex(page, limit) > 0 then Some(Link(page - 1, limit)) else None)
  }

  // ---------------------------------------------------------------------
  // The middleware.
  // ---------------------------------------------------------------------

  /** Deletes the reserved keys from a copy of the query, one by one. */
  method StripReserved(query: map<string, Param>) returns (r: map<string, Param>)
    ensures forall k :: k in r <==> k in query && k !in ReservedKeys
    ensures forall k :: k in r ==> r[k] == query[k]
  {
    r := query;
    for i := 0 to |ReservedKeys|
      invariant forall k :: k in r <==> k in query && k !in ReservedKeys[..i]
      invariant forall k :: k in r ==> r[k] == query[k]
    {
      r := r - {ReservedKeys[i]};
    }
  }

  lemma FilterOfCases(modelName: string, query: map<string, Param>)
    ensures FeeStatusCondition(modelName, query).None? ==> FilterOf(modelName, query) == Rewritten(Stripped(query))
    ensures FeeStatusCondition(modelName, query).Some? ==>
              FilterOf(modelName, query) == Rewritten(Stripped(query))["fee.balance" := FeeStatusCondition(modelName, query).value]
  {
  }

  /** The find filter: the query without reserved keys, rewritten, then the fee-status condition. */
  method BuildFilter(modelName: string, query: map<string, Param>) returns (parsed: map<string, Condition>)
    ensures parsed == FilterOf(modelName, query)
  {
    var reqQuery := StripReserved(query);
    assert reqQuery == Stripped(query);
    parsed := Rewritten(reqQuery);
    FilterOfCases(modelName, query);

    if modelName == "Student" && Truthy(query, "feeStatus") {
      if query["feeStatus"] == Text("pending") {
        parsed := parsed["fee.balance" := GreaterThan(0)];
      } else if query["feeStatus"] == Text("completed") {
        parsed := parsed["fee.balance" := AtMost(0)];
      }
    }
  }

  /** The `pagination` object, filled link by link. */
  method Paginate(page: int, limit: int, total: nat) returns (response: Response)
    ensures response == Links(page, limit, total)
  {
    var startIndex := (page - 1) * limit;
    var endIndex := page * limit;
    var next: Option<Link> := None;
    var prev: Option<Link> := None;
    if endIndex < total {
      next := Some(Link(page + 1, limit));
    }
    if startIndex > 0 {
      prev := Some(Link(page - 1, limit));
    }
    response := Response(total, next, prev);
  }

  /**
   * The middleware for the collection `modelName`, given the request's query
   * and the number of documents the store counts for the filter.
   */
  method Run(modelName: string, query: map<string, Param>, total: nat) returns (r: Result<Outcome, Failure>)
    ensures r.Err? <==> SelectOf(query).None? || SortOf(modelName, query).None? || AnyOf(modelName, query).None?
    ensures r.Ok? ==> r.value.plan.filter == FilterOf(modelName, query)
    ensures r.Ok? ==> r.value.plan.anyOf == AnyOf(modelName, query).value
    ensures r.Ok? ==> r.value.plan.select == SelectOf(query).value
    ensures r.Ok? ==> r.value.plan.sort == SortOf(modelName, query).value
    ensures r.Ok? ==> r.value.plan.skip == StartIndex(PageOf(query), LimitOf(query))
    ensures r.Ok? ==> r.value.plan.limit == LimitOf(query)
    ensures r.Ok? ==> r.value.response == Links(PageOf(query), LimitOf(query), total)
  {
    var parsed := BuildFilter(modelName, query);

    var anyOf: seq<(string, string)> := [];
    if Truthy(query, "q") && modelName == "Student" {
      if query["q"].Nested? {
        return Err(Unanswered);
      }
      var pattern := query["q"].text;
      anyOf := [("firstName", pattern), ("lastName", pattern), ("rollNumber", pattern), ("phoneNumber", pattern)];
    }

    var select: Option<string> := None;
    if Truthy(query, "select") {
      if query["select"].Nested? {
        return Err(Unanswered);
      }
      select := Some(CommasToSpaces(query["select"].text));
    }

    var sort: Sort;
    if Truthy(query, "sortByFees") && modelName == "Student" {
      if query["sortByFees"] == Text("desc") {
        sort := SortBy("-fee.balance");
      } else if query["sortByFees"] == Text("asc") {
        sort := SortBy("fee.balance");
      } else {
        sort := Unsorted;
      }
    } else if Truthy(query, "sort") {
      if query["sort"].Nested? {
        return Err(Unanswered);
      }
      sort := SortBy(CommasToSpaces(query["sort"].text));
    } else {
      sort := SortBy("-createdAt");
    }

    var page := PageOf(query);
    var limit := LimitOf(query);
    var response := Paginate(page, limit, total);
    r := Ok(Outcome(Plan(parsed, anyOf, select, sort, StartIndex(page, limit), limit), response));
  }

  // ---------------------------------------------------------------------
  // What the middleware promises.
  // ---------------------------------------------------------------------

  /** Each reserved key is a single word, so the rewrite cannot produce it from another key. */
  lemma ReservedKeyIsWord(k: string)
    requires k in ReservedKeys
    ensures forall i :: 0 <= i < |k| ==> IsWordChar(k[i])
    ensures k != "fee.balance"
  {
  }

  /** The reserved keys never become conditions, whatever the query holds. */
  lemma ReservedNeverFiltered(modelName: string, query: map<string, Param>, k: string)
    requires k in ReservedKeys
    ensures k !in FilterOf(modelName, query)
  {
    ReservedKeyIsWord(k);
    var stripped := Stripped(query);
    if k in Rewritten(stripped) {
      var k' :| k' in stripped && RewriteOperators(k') == k;
      RestoreRewrite(k');
      RestoreWord(k);
    }
  }

  /** Every other key survives, under its rewritten name and with its rewritten value. */
  lemma OtherKeysKept(modelName: string, query: map<string, Param>, k: string)
    requires k in query && k !in ReservedKeys && RewriteOperators(k) != "fee.balance"
    ensures RewriteOperators(k) in FilterOf(modelName, query)
    ensures FilterOf(modelName, query)[RewriteOperators(k)] == Match(RewriteParam(query[k]))
  {
    assert k in Stripped(query);
  }

  /** `search` is stripped and never read: its value changes nothing. */
  lemma SearchKeyIgnored(modelName: string, query: map<string, Param>, v: Param)
    ensures FilterOf(modelName, query["search" := v]) == FilterOf(modelName, query)
  {
    assert Stripped(query["search" := v]) == Stripped(query);
  }

  lemma SearchKeyIgnored2(modelName: string, query: map<string, Param>, v: Param)
    ensures AnyOf(modelName, query["search" := v]) == AnyOf(modelName, query)
    ensures SortOf(modelName, query["search" := v]) == SortOf(modelName, query)
    ensures SelectOf(query["search" := v]) == SelectOf(query)
    ensures PageOf(query["search" := v]) == PageOf(query) && LimitOf(query["search" := v]) == LimitOf(query)
  {
  }

  /** What the store makes of a comparison on a number: `$gt` is strictly above, `$lte` at most. */
  predicate Holds(c: Condition, x: int)
    requires c.GreaterThan? || c.AtMost?
  {
    match c
    case GreaterThan(bound) => x > bound
    case AtMost(bound) => x <= bound
  }

  /** The students whose balance meets a comparison. */
  function Selected(c: Condition, students: map<nat, Student>): (r: set<nat>)
    requires c.GreaterThan? || c.AtMost?
    ensures r <= students.Keys
  {
    set id | id in students && Holds(c, students[id].fee.balance)
  }

  /**
   * `feeStatus=pending` on the Student collection selects exactly the
   * defaulters, and `completed` exactly the others, whatever `fee.balance`
   * condition the query itself carried.
   */
  lemma FeeStatusSelectsDefaulters(query: map<string, Param>, students: map<nat, Student>)
    requires "feeStatus" in query
    ensures query["feeStatus"] == Text("pending") ==>
              var c := FilterOf("Student", query)["fee.balance"];
              c.GreaterThan? && Selected(c, students) == FeeLedger.Defaulters(students)
    ensures query["feeStatus"] == Text("completed") ==>
              var c := FilterOf("Student", query)["fee.balance"];
              c.AtMost? && Selected(c, students) == students.Keys - FeeLedger.Defaulters(students)
    ensures query["feeStatus"] != Text("pending") && query["feeStatus"] != Text("completed") ==>
              FilterOf("Student", query) == Rewritten(Stripped(query))
  {
    if query["feeStatus"] == Text("pending") {
      assert FilterOf("Student", query)["fee.balance"] == GreaterThan(0);
    } else if query["feeStatus"] == Text("completed") {
      assert FilterOf("Student", query)["fee.balance"] == AtMost(0);
    }
  }

  /** The two statuses split the students: every student is either pending or completed, never both. */
  lemma FeeStatusPartitions(students: map<nat, Student>)
    ensures Selected(GreaterThan(0), students) + Selected(AtMost(0), students) == students.Keys
    ensures Selected(GreaterThan(0), students) * Selected(AtMost(0), students) == {}
  {
    var pending := Selected(GreaterThan(0), students);
    var completed := Selected(AtMost(0), students);
    forall id | id in students
      ensures id in pending + completed
    {
      assert Holds(GreaterThan(0), students[id].fee.balance) || Holds(AtMost(0), students[id].fee.balance);
    }
  }

  /** On any other collection `feeStatus` adds nothing. */
  lemma FeeStatusOnlyForStudents(modelName: string, query: map<string, Param>)
    requires modelName != "Student"
    ensures FilterOf(modelName, query) == Rewritten(Stripped(query))
    ensures AnyOf(modelName, query) == Some([])
  {
  }

  /** A non-empty string `q` searches the four name and number fields of a student. */
  lemma SearchFieldsCovered(query: map<string, Param>, pattern: string)
    requires "q" in query && query["q"] == Text(pattern) && pattern != ""
    ensures AnyOf("Student", query) == Some([("firstName", pattern), ("lastName", pattern),
                                             ("rollNumber", pattern), ("phoneNumber", pattern)])
  {
  }

  /** A fee-balance sort on students outranks `sort`: the latter is then never read. */
  lemma SortPrecedence(query: map<string, Param>, v: Param)
    requires Truthy(query, "sortByFees")
    ensures SortOf("Student", query["sort" := v]) == SortOf("Student", query)
    ensures SortOf("Student", query).Some?
    ensures SortOf("Student", query).value.SortBy? <==>
              query["sortByFees"] == Text("desc") || query["sortByFees"] == Text("asc")
  {
    assert "sortByFees" in query["sort" := v] && query["sort" := v]["sortByFees"] == query["sortByFees"];
  }

  /** Without `sortByFees`, an empty or missing `sort` falls back to newest first. */
  lemma DefaultSort(modelName: string, query: map<string, Param>)
    requires "sortByFees" !in query && "sort" !in query
    ensures SortOf(modelName, query) == Some(SortBy("-createdAt"))
  {
  }

  /** The sort and projection lists keep every field name and lose every comma. */
  lemma {:induction false} CommasToSpacesSplit(a: string, b: string)
    requires forall i :: 0 <= i < |a| ==> a[i] != ',' && a[i] != ' '
    ensures CommasToSpaces(a + "," + b) == a + " " + CommasToSpaces(b)
    ensures forall i :: 0 <= i < |CommasToSpaces(b)| ==> CommasToSpaces(b)[i] != ','
  {
    var s := a + "," + b;
    var r := CommasToSpaces(s);
    forall i | 0 <= i < |s| ensures r[i] == (a + " " + CommasToSpaces(b))[i] {
      if i < |a| {
        assert s[i] == a[i];
      } else if i > |a| {
        assert s[i] == b[i - |a| - 1];
      }
    }
  }

  /** A missing, unreadable or zero page is page 1; a missing, unreadable or zero limit is 25. */
  lemma PageDefaults(query: map<string, Param>)
    ensures PageOf(query) != 0 && LimitOf(query) != 0
    ensures "page" !in query ==> PageOf(query) == 1
    ensures "limit" !in query ==> LimitOf(query) == 25
    ensures "page" in query && query["page"] == Text("0") ==> PageOf(query) == 1
  {
    if "page" in query && query["page"] == Text("0") {
      assert TrimStart("0") == "0";
      assert DigitPrefix("0") == "0" by {
        assert DigitPrefix("0") == ['0'] + DigitPrefix("0"[1..]);
      }
    }
  }

  /** A page written as a decimal number is read back as that number. */
  lemma PageOfDecimal(query: map<string, Param>, page: nat, limit: nat)
    requires page >= 1 && limit >= 1
    requires "page" in query && query["page"] == Text(NatToString(page))
    requires "limit" in query && query["limit"] == Text(NatToString(limit))
    ensures PageOf(query) == page && LimitOf(query) == limit
  {
    ParseIntOfNatToString(page);
    ParseIntOfNatToString(limit);
  }

  /** The page that holds the match at index `i`. */
  function PageOfIndex(i: nat, limit: int): int
    requires limit >= 1
  {
    i / limit + 1
  }

  lemma MultiplyMonotone(a: int, b: int, c: int)
    requires a <= b && c >= 0
    ensures a * c <= b * c
  {
  }

  /** With a positive limit, every match lies on exactly one page, and that page is positive. */
  lemma EveryIndexOnOnePage(i: nat, limit: int, page: int)
    requires limit >= 1
    ensures PageOfIndex(i, limit) >= 1
    ensures StartIndex(page, limit) <= i < StartIndex(page, limit) + limit <==> page == PageOfIndex(i, limit)
  {
    var q := i / limit;
    assert q * limit <= i < q * limit + limit;
    if page - 1 < q {
      MultiplyMonotone(page, q, limit);
    } else if page - 1 > q {
      MultiplyMonotone(q + 1, page - 1, limit);
    }
  }

  /**
   * With page and limit positive: `prev` is present exactly when the page
   * is not the first, and `next` exactly when the last match lies on a
   * later page.
   */
  lemma LinksMeaning(page: int, limit: int, total: nat)
    requires page >= 1 && limit >= 1
    ensures Links(page, limit, total).prev.Some? <==> page > 1
    ensures Links(page, limit, total).next.Some? <==> total > 0 && PageOfIndex(total - 1, limit) > page
  {
    if page > 1 {
      MultiplyMonotone(1, page - 1, limit);
    }
    if total > 0 {
      var q := (total - 1) / limit;
      assert q * limit <= total - 1 < q * limit + limit;
      if q >= page {
        MultiplyMonotone(page, q, limit);
      } else {
        MultiplyMonotone(q + 1, page, limit);
      }
    }
  }
}
