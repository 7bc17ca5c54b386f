/** Request paths: how the client writes them, which ones may be queued
    (lib/core/network/offline_interceptor.dart), and how the API routes them. */
module Paths {
  import opened Outcomes
  import opened Schema
  import opened Text
  import opened Queue

  function Split(s: string, c: char): (parts: seq<string>)
    ensures parts != []
  {
    if s == "" then
      [""]
    else
      var rest := Split(s[1..], c);
      if s[0] == c then [""] + rest else [[s[0]] + rest[0]] + rest[1..]
  }

  lemma {:induction false} SplitAtSeparator(a: string, b: string, c: char)
    requires c !in a
    ensures Split(a + [c] + b, c) == [a] + Split(b, c)
  {
    var s := a + [c] + b;
    if a == "" {
      assert s[1..] == b;
    } else {
      assert s[1..] == a[1..] + [c] + b;
      SplitAtSeparator(a[1..], b, c);
      assert [a[0]] + a[1..] == a;
    }
  }

  lemma {:induction false} SplitWithoutSeparator(a: string, c: char)
    requires c !in a
    ensures Split(a, c) == [a]
  {
    if a != "" {
      SplitWithoutSeparator(a[1..], c);
      assert [a[0]] + a[1..] == a;
    }
  }

  // ----- the queueable endpoints -----

  datatype Action = Items | StatusChange | Close
  datatype Endpoint = Orders | Sub(order: Id, action: Action)

  function Name(a: Action): string {
    match a
    case Items => "items"
    case StatusChange => "status"
    case Close => "close"
  }

  function Render(e: Endpoint): string {
    match e
    case Orders => "/orders"
    case Sub(id, action) => "/orders/" + id + "/" + Name(action)
  }

  function VerbOf(e: Endpoint): string {
    if e.Sub? && e.action == StatusChange then "PATCH" else "POST"
  }

  predicate IsWordChar(c: char) {
    ('a' <= c <= 'z') || ('A' <= c <= 'Z') || ('0' <= c <= '9') || c == '_' || c == '-'
  }

  /** The interceptor's test of a path. */
  predicate Queueable(path: string) {
    var parts := Split(path, '/');
    || path == "/orders"
    || (&& |parts| == 4 && parts[0] == "" && parts[1] == "orders"
        && parts[2] != "" && (forall i :: 0 <= i < |parts[2]| ==> IsWordChar(parts[2][i]))
        && parts[3] in {"items", "status", "close"})
  }

  /** The API's routing of the endpoints above. */
  function Route(verb: string, path: string, body: Payload): Option<Call> {
    var parts := Split(path, '/');
    if parts == ["", "orders"] && verb == "POST" && body.CreatePayload? then
      Some(CreateOrder(body.create))
    else if |parts| == 4 && parts[0] == "" && parts[1] == "orders" then
      if parts[3] == "items" && verb == "POST" && body.ItemPayload? then Some(AddItem(parts[2], body.item))
      else if parts[3] == "status" && verb == "PATCH" && body.StatusPayload? then
        Some(UpdateStatus(parts[2], body.next))
      else if parts[3] == "close" && verb == "POST" && body.ClosePayload? then Some(CloseOrder(parts[2], body.close))
      else None
    else
      None
  }

  function Segments(e: Endpoint): seq<string> {
    if e.Orders? then ["", "orders"] else ["", "orders", e.order, Name(e.action)]
  }

  lemma ThreeSegments(first: string, id: string, last: string, c: char)
    requires c !in first && c !in id && c !in last
    ensures Split([c] + first, c) == ["", first]
    ensures Split([c] + first + [c] + id + [c] + last, c) == ["", first, id, last]
  {
    SplitWithoutSeparator(first, c);
    SplitAtSeparator("", first, c);
    assert "" + [c] + first == [c] + first;
    SplitWithoutSeparator(last, c);
    SplitAtSeparator(id, last, c);
    var tail := id + [c] + last;
    SplitAtSeparator(first, tail, c);
    SplitAtSeparator("", first + [c] + tail, c);
    assert "" + [c] + (first + [c] + tail) == [c] + first + [c] + id + [c] + last;
  }

  lemma RenderSplits(e: Endpoint)
    requires e.Sub? ==> '/' !in e.order
    ensures Split(Render(e), '/') == Segments(e)
  {
    var id, last := if e.Sub? then e.order else "", if e.Sub? then Name(e.action) else "";
    assert '/' !in last;
    ThreeSegments("orders", id, last, '/');
    assert "/orders" == ['/'] + "orders" && "/orders/" == ['/'] + "orders" + ['/'];
    assert e.Sub? ==> Render(e) == ['/'] + "orders" + ['/'] + id + ['/'] + last;
  }

  predicate BodyFits(e: Endpoint, body: Payload) {
    if e.Orders? then
      body.CreatePayload?
    else
      match e.action
      case Items => body.ItemPayload?
      case StatusChange => body.StatusPayload?
      case Close => body.ClosePayload?
  }

  /** The call that a request for an endpoint means. */
  function CallOf(e: Endpoint, body: Payload): Call
    requires BodyFits(e, body)
  {
    match body
    case CreatePayload(create) => CreateOrder(create)
    case ItemPayload(item) => AddItem(e.order, item)
    case StatusPayload(next) => UpdateStatus(e.order, next)
    case ClosePayload(close) => CloseOrder(e.order, close)
  }

  /** Routing undoes rendering. */
  lemma RouteOfRender(e: Endpoint, body: Payload)
    requires BodyFits(e, body) && (e.Sub? ==> '/' !in e.order)
    ensures Route(VerbOf(e), Render(e), body) == Some(CallOf(e, body))
  {
    RenderSplits(e);
  }

  // ----- temporary and real identifiers -----

  /** 'temp_' followed by the clock, as createOrder makes it. */
  predicate IsTempId(id: Id) {
    "temp_" < id && (forall i :: 0 <= i < |id| ==> IsWordChar(id[i]))
  }

  /** A server identifier: letters, digits and hyphens, no underscore. */
  predicate IsRealId(id: Id) {
    id != "" && (forall i :: 0 <= i < |id| ==> IsWordChar(id[i]) && id[i] != '_')
  }

  lemma TempIsNotReal(t: Id)
    requires IsTempId(t)
    ensures '_' in t && '/' !in t && t != "" && !IsRealId(t)
  {
    assert t[4] == '_';
  }

  lemma RealHasNoTemp(id: Id, t: Id)
    requires IsRealId(id) && IsTempId(t)
    ensures !Contains(id, t) && '/' !in id
  {
    TempIsNotReal(t);
    MissingCharacter(id, t, '_');
  }

  lemma RenderShape(e: Endpoint)
    requires e.Sub?
    ensures Render(e) == "" + "/" + ("orders" + "/" + (e.order + "/" + Name(e.action)))
  {
    assert "/orders/" == "" + "/" + ("orders" + "/");
  }

  lemma RemapWord(s: string, t: Id, actual: Id)
    requires '_' in t && '_' !in s
    ensures ReplaceAll(s, t, actual) == s && !Contains(s, t)
  {
    MissingCharacter(s, t, '_');
    ReplaceAbsent(s, t, actual);
  }

  lemma RemapSegments(none: string, first: string, id: Id, last: string, t: Id, actual: Id)
    requires IsTempId(t) && '_' !in none && '_' !in first && '_' !in last
    ensures ReplaceAll(none + "/" + (first + "/" + (id + "/" + last)), t, actual) ==
            none + "/" + (first + "/" + (ReplaceAll(id, t, actual) + "/" + last))
    ensures Contains(none + "/" + (first + "/" + (id + "/" + last)), t) <==> Contains(id, t)
  {
    TempIsNotReal(t);
    RemapWord(none, t, actual);
    RemapWord(first, t, actual);
    RemapWord(last, t, actual);
    ReplaceAroundSlash(id, last, t, actual);
    ReplaceAroundSlash(first, id + "/" + last, t, actual);
    ReplaceAroundSlash(none, first + "/" + (id + "/" + last), t, actual);
    ContainsAroundSlash(id, last, t);
    ContainsAroundSlash(first, id + "/" + last, t);
    ContainsAroundSlash(none, first + "/" + (id + "/" + last), t);
  }

  /** Remapping a rendered path replaces its order segment and nothing else; the path contains a
      temporary identifier exactly when that segment does. */
  lemma RemapRendered(e: Endpoint, t: Id, actual: Id)
    requires IsTempId(t)
    ensures ReplaceAll(Render(e), t, actual) ==
            Render(if e.Sub? then Sub(ReplaceAll(e.order, t, actual), e.action) else e)
    ensures Contains(Render(e), t) <==> e.Sub? && Contains(e.order, t)
  {
    if e.Sub? {
      RenderShape(e);
      RenderShape(Sub(ReplaceAll(e.order, t, actual), e.action));
      assert '_' !in Name(e.action);
      RemapSegments("", "orders", e.order, Name(e.action), t, actual);
    } else {
      TempIsNotReal(t);
      RemapWord("/orders", t, actual);
    }
  }

  /** Remapping a queue of rendered paths is substitution of the exact segment, and leaves no path
      with the temporary identifier, provided no other segment contains it. */
  lemma RemapIsSubstitution(list: Entries, endpoints: seq<Endpoint>, t: Id, actual: Id)
    requires IsTempId(t) && IsRealId(actual) && |endpoints| == |list|
    requires forall i :: 0 <= i < |list| ==> list[i].path == Render(endpoints[i])
    requires forall i :: 0 <= i < |list| && endpoints[i].Sub? ==>
               endpoints[i].order == t || !Contains(endpoints[i].order, t)
    ensures forall i :: 0 <= i < |list| ==>
              && var e := endpoints[i];
              && Remapped(list, t, actual)[i] ==
                   list[i].(path := Render(if e.Sub? && e.order == t then Sub(actual, e.action) else e))
              && !Contains(Remapped(list, t, actual)[i].path, t)
  {
    TempIsNotReal(t);
    RealHasNoTemp(actual, t);
    forall i | 0 <= i < |list|
      ensures var e := endpoints[i];
        && ReplaceAll(list[i].path, t, actual) == Render(if e.Sub? && e.order == t then Sub(actual, e.action) else e)
        && !Contains(ReplaceAll(list[i].path, t, actual), t)
    {
      var e := endpoints[i];
      RemapRendered(e, t, actual);
      if e.Sub? && e.order == t {
        ReplaceWhole(t, actual);
        RemapRendered(Sub(actual, e.action), t, actual);
      } else {
        if e.Sub? {
          ReplaceAbsent(e.order, t, actual);
        }
      }
    }
  }

  function Underscores(s: string): nat {
    if s == "" then 0 else (if s[0] == '_' then 1 else 0) + Underscores(s[1..])
  }

  lemma {:induction false} UnderscoresAdd(a: string, b: string)
    ensures Underscores(a + b) == Underscores(a) + Underscores(b)
  {
    if a == "" {
      assert a + b == b;
    } else {
      assert (a + b)[1..] == a[1..] + b;
      UnderscoresAdd(a[1..], b);
    }
  }

  lemma {:induction false} NoUnderscores(s: string)
    requires '_' !in s
    ensures Underscores(s) == 0
  {
    if s != "" {
      NoUnderscores(s[1..]);
    }
  }

  lemma {:induction false} HasUnderscore(s: string)
    requires '_' in s
    ensures Underscores(s) > 0
  {
    if s[0] != '_' {
      assert s == [s[0]] + s[1..];
      HasUnderscore(s[1..]);
    }
  }

  /** Replacing a pattern that has underscores by a text without them loses some, wherever it occurs. */
  lemma {:induction false} ReplacementLosesUnderscores(s: string, t: string, actual: string)
    requires '_' in t && '_' !in actual
    ensures Underscores(ReplaceAll(s, t, actual)) <= Underscores(s)
    ensures Contains(s, t) ==> Underscores(ReplaceAll(s, t, actual)) < Underscores(s)
    decreases |s|
  {
    if s != "" {
      if t <= s {
        assert s == t + s[|t|..];
        UnderscoresAdd(t, s[|t|..]);
        UnderscoresAdd(actual, ReplaceAll(s[|t|..], t, actual));
        NoUnderscores(actual);
        HasUnderscore(t);
        ReplacementLosesUnderscores(s[|t|..], t, actual);
      } else {
        assert s == [s[0]] + s[1..];
        UnderscoresAdd([s[0]], ReplaceAll(s[1..], t, actual));
        ReplacementLosesUnderscores(s[1..], t, actual);
      }
    }
  }

  /** Remapping spares the path of another temporary identifier exactly when that identifier does not
      contain the one remapped. Identifiers of one length never contain each other. */
  lemma RemapSparesExactlyWhen(other: Id, a: Action, t: Id, actual: Id)
    requires IsTempId(other) && IsTempId(t) && IsRealId(actual)
    ensures ReplaceAll(Render(Sub(other, a)), t, actual) == Render(Sub(other, a)) <==> !Contains(other, t)
  {
    TempIsNotReal(t);
    if Contains(other, t) {
      RemapRendered(Sub(other, a), t, actual);
      ReplacementLosesUnderscores(other, t, actual);
      SegmentIsDetermined(ReplaceAll(other, t, actual), other, a);
    } else {
      RemapRendered(Sub(other, a), t, actual);
      ReplaceAbsent(other, t, actual);
    }
  }

  lemma SegmentIsDetermined(x: Id, y: Id, a: Action)
    ensures Render(Sub(x, a)) == Render(Sub(y, a)) ==> x == y
  {
    var p, q := Render(Sub(x, a)), Render(Sub(y, a));
    if p == q {
      assert |x| == |y|;
      assert p[8..8 + |x|] == x && q[8..8 + |y|] == y;
    }
  }
}
