/** `src/lib/aiProviders.ts`: turning the text an AI provider answers with into
    ideas, and trying the providers in order until one of them yields ideas.

    `JSON.parse` is a library call and arrives as a parameter `parse`, a
    partial function from text to a JSON value; `uuidv4` and `Date.now` arrive
    as `stamps`, the identifier and timestamp given to element `i`. What a
    provider's `generate` call returns or throws arrives as `generate`. */
module AiProviders {
  import opened Wrappers
  import opened Text
  import opened IdeaEngine

  /** A JSON value as `JSON.parse` returns it. */
  datatype Json =
    | Null
    | Bool(b: bool)
    | Num(n: real)
    | Str(s: string)
    | Arr(items: seq<Json>)
    | Obj(fields: map<string, Json>)

  /** JavaScript truthiness of a JSON value: `null`, `false`, `0` and `""`
      are falsy, everything else (every array and object) is truthy. */
  predicate Truthy(v: Json)
  {
    match v
    case Null => false
    case Bool(b) => b
    case Num(n) => n != 0.0
    case Str(s) => s != ""
    case Arr(_) => true
    case Obj(_) => true
  }

  /** `t[key]` for an element that is not `null`: the member of an object,
      and `undefined` (`None`) for a missing member or any other value. */
  function Field(t: Json, key: string): Option<Json>
  {
    if t.Obj? && key in t.fields then Some(t.fields[key]) else None
  }

  /** `v || d` is `d`: the value is `undefined` or falsy. */
  predicate Falsy(v: Option<Json>)
  {
    v.None? || !Truthy(v.value)
  }

  /** `v || d` for a string field. */
  function StringOr(v: Option<Json>, d: string): (r: string)
    ensures Falsy(v) ==> r == d
    ensures v.Some? && v.value.Str? && Truthy(v.value) ==> r == v.value.s
  {
    if v.Some? && v.value.Str? && v.value.s != "" then v.value.s else d
  }

  predicate AllStrings(items: seq<Json>)
  {
    forall i :: 0 <= i < |items| ==> items[i].Str?
  }

  /** `v || []` for a list-of-strings field. */
  function StringsOr(v: Option<Json>): (r: seq<string>)
    ensures Falsy(v) ==> r == []
    ensures v.Some? && v.value.Arr? && AllStrings(v.value.items) ==>
      |r| == |v.value.items| && forall i :: 0 <= i < |r| ==> v.value.items[i] == Str(r[i])
  {
    if v.Some? && v.value.Arr? && AllStrings(v.value.items) then
      seq(|v.value.items|, i requires 0 <= i < |v.value.items| => v.value.items[i].s)
    else []
  }

  /** What `uuidv4()` and `Date.now()` give one element. */
  datatype Stamp = Stamp(id: string, now: int)

  /** The `.replace(/```json/g, "").replace(/```/g, "").trim()` chain. */
  function Clean(text: string): (r: string)
    ensures |r| <= |text|
    ensures r == [] || (!IsJsSpace(r[0]) && !IsJsSpace(r[|r| - 1]))
  {
    Trim(RemoveAll(RemoveAll(text, JsonFence), Fence))
  }

  /** The cleaned text never holds three backticks in a row. */
  lemma CleanHasNoFence(text: string)
    ensures !Contains(Clean(text), Fence)
  {
    var stripped := RemoveAll(RemoveAll(text, JsonFence), Fence);
    NoFenceAfterRemoval(RemoveAll(text, JsonFence));
    if Contains(Clean(text), Fence) {
      TrimContains(stripped, Fence);
    }
  }

  /** A reply that is one fenced JSON block with no backtick inside reaches
      the parser as the block's text, trimmed. */
  lemma CleanFenced(j: string)
    requires '`' !in j
    ensures Clean(JsonFence + j + Fence) == Trim(j)
  {
    var once := RemoveAll(JsonFence + j + Fence, JsonFence);
    FencedBlockOpened(j);
    assert once == j + Fence;
    assert RemoveAll(once, Fence) == j by {
      RemoveAllKeepsPrefix(j, Fence, []);
      assert j + Fence + [] == j + Fence;
      assert |Fence| == 3;
      assert RemoveAll([], Fence) == [];
      assert j + [] == j;
    }
  }

  /** Removing "```json" from a fenced block leaves the block's text and the
      closing fence. */
  lemma FencedBlockOpened(j: string)
    requires '`' !in j
    ensures RemoveAll(JsonFence + j + Fence, JsonFence) == j + Fence
  {
    var body := j + Fence;
    assert |JsonFence| == 7 && |body| == |j| + 3;
    RemoveAllKeepsPrefix([], JsonFence, body);
    assert [] + JsonFence + body == JsonFence + j + Fence;
    forall i: nat ensures !OccursAt(body, JsonFence, i) {
      if i + |JsonFence| <= |body| {
        assert i < |j| && body[i] == j[i];
        assert body[i..i + |JsonFence|][0] == j[i];
      }
    }
    RemoveAllAbsent(body, JsonFence);
  }

  /** Cleaning a cleaned text changes nothing. */
  lemma CleanIdempotent(text: string)
    ensures Clean(Clean(text)) == Clean(text)
  {
    var x := Clean(text);
    CleanHasNoFence(text);
    NoJsonFence(x);
    RemoveAllAbsent(x, JsonFence);
    RemoveAllAbsent(x, Fence);
    TrimTrimmed(x);
  }

  /** One element of the parsed array as an idea: each field falls back to
      its default when missing or falsy, and the idea has no steps, no
      product spec and both flags off. */
  function ToIdea(t: Json, stamp: Stamp): (r: Idea)
    ensures Falsy(Field(t, "title")) ==> r.title == "Untitled Idea"
    ensures Falsy(Field(t, "description")) ==> r.description == ""
    ensures Falsy(Field(t, "type")) ==> r.kind == "App"
    ensures Falsy(Field(t, "tags")) ==> r.tags == []
    ensures Falsy(Field(t, "difficulty")) ==> r.difficulty == "Medium"
    ensures Falsy(Field(t, "techStack")) ==> r.techStack == []
    ensures forall s :: Field(t, "title") == Some(Str(s)) && s != "" ==> r.title == s
    ensures forall s :: Field(t, "description") == Some(Str(s)) && s != "" ==> r.description == s
    ensures forall s :: Field(t, "type") == Some(Str(s)) && s != "" ==> r.kind == s
    ensures forall s :: Field(t, "difficulty") == Some(Str(s)) && s != "" ==> r.difficulty == s
    ensures forall xs :: Field(t, "tags") == Some(Arr(xs)) && AllStrings(xs) ==>
      |r.tags| == |xs| && forall i :: 0 <= i < |xs| ==> xs[i] == Str(r.tags[i])
    ensures forall xs :: Field(t, "techStack") == Some(Arr(xs)) && AllStrings(xs) ==>
      |r.techStack| == |xs| && forall i :: 0 <= i < |xs| ==> xs[i] == Str(r.techStack[i])
    ensures r.id == stamp.id && r.createdAt == stamp.now
    ensures r.steps == [] && r.productSpec.None? && !r.liked && !r.checked
  {
    Idea(
      id := stamp.id,
      title := StringOr(Field(t, "title"), "Untitled Idea"),
      kind := StringOr(Field(t, "type"), "App"),
      description := StringOr(Field(t, "description"), ""),
      tags := StringsOr(Field(t, "tags")),
      difficulty := StringOr(Field(t, "difficulty"), "Medium"),
      techStack := StringsOr(Field(t, "techStack")),
      steps := [],
      productSpec := None,
      createdAt := stamp.now,
      liked := false,
      checked := false)
  }

  predicate HasNull(items: seq<Json>)
  {
    exists i :: 0 <= i < |items| && items[i] == Null
  }

  /** `templates.map(...)` over a parsed value. */
  function MapTemplates(templates: Json, stamps: int -> Stamp): (r: Result<seq<Idea>>)
    ensures r.Ok? <==> templates.Arr? && !HasNull(templates.items)
    ensures r.Ok? ==> |r.value| == |templates.items|
  {
    match templates
    case Null => Err("Cannot read properties of null (reading 'map')")
    case Arr(items) =>
      if HasNull(items) then Err("Cannot read properties of null (reading 'title')")
      else Ok(seq(|items|, i requires 0 <= i < |items| => ToIdea(items[i], stamps(i))))
    case _ => Err("templates.map is not a function")
  }

  /** `parseIdeasFromJSON(text)`. */
  function ParseIdeasFromJSON(text: string, parse: string -> Result<Json>, stamps: int -> Stamp)
    : (r: Result<seq<Idea>>)
  {
    match parse(Clean(text))
    case Err(m) => Err(m)
    case Ok(templates) => MapTemplates(templates, stamps)
  }

  /** Parsing yields ideas exactly when the cleaned text parses to an array
      with no `null` in it; then it yields one idea per element, in order, each
      carrying its element's stamp. A parse error propagates unchanged. */
  lemma ParseResult(text: string, parse: string -> Result<Json>, stamps: int -> Stamp)
    ensures var r := ParseIdeasFromJSON(text, parse, stamps);
      var p := parse(Clean(text));
      (r.Ok? <==> p.Ok? && p.value.Arr? && !HasNull(p.value.items))
      && (p.Err? ==> r == Err(p.message))
      && (r.Ok? ==>
            |r.value| == |p.value.items|
            && forall i :: 0 <= i < |r.value| ==>
                 r.value[i] == ToIdea(p.value.items[i], stamps(i)))
  {
  }

  /** The providers, in the order `providers` lists them. */
  datatype Provider = Pollinations | Gemini | OpenRouter

  function Name(p: Provider): string
  {
    match p
    case Pollinations => "Pollinations"
    case Gemini => "Gemini"
    case OpenRouter => "OpenRouter"
  }

  const Providers: seq<Provider> := [Pollinations, Gemini, OpenRouter]

  /** What one `provider.generate(niche, count, geminiApiKey)` call does:
      resolve to a list of ideas, or throw with a message. */
  datatype Outcome = Returned(ideas: seq<Idea>) | Threw(message: string)

  /** `provider.generate` for every provider and argument list. */
  type Generate = (Provider, string, int, Option<string>) -> Outcome

  /** The providers the loop does not skip. */
  function Eligible(key: Option<string>): (r: seq<Provider>)
    ensures |r| > 0 && r[0] == Pollinations && r[|r| - 1] == OpenRouter
    ensures Gemini in r <==> Given(key)
  {
    if Given(key) then Providers else [Pollinations, OpenRouter]
  }

  /** The call resolved to at least one idea: the loop returns them. */
  predicate Succeeds(o: Outcome)
  {
    o.Returned? && |o.ideas| > 0
  }

  /** The error entry one call leaves: `"name: message"` if it threw. */
  function Entry(p: Provider, o: Outcome): seq<string>
  {
    if o.Threw? then [Name(p) + ": " + o.message] else []
  }

  /** The record of one run of the fallback loop: the providers invoked, in
      order, the error entries collected, and what the function returns or
      throws. */
  datatype Run = Run(invoked: seq<Provider>, errors: seq<string>, result: Result<seq<Idea>>)

  const FailurePrefix: string := "All AI providers failed: "

  /** The message thrown when every provider failed. */
  function FailureMessage(errors: seq<string>): string
  {
    FailurePrefix + Join(errors, "; ")
  }

  /** The fallback loop from the providers `ps` on, with `invoked` and
      `errors` so far. */
  function RunFrom(ps: seq<Provider>, niche: string, count: int, key: Option<string>,
                   generate: Generate, invoked: seq<Provider>, errors: seq<string>): Run
    decreases |ps|
  {
    if ps == [] then Run(invoked, errors, Err(FailureMessage(errors)))
    else
      var p := ps[0];
      if p == Gemini && !Given(key) then
        RunFrom(ps[1..], niche, count, key, generate, invoked, errors)
      else
        var o := generate(p, niche, count, key);
        if Succeeds(o) then Run(invoked + [p], errors, Ok(o.ideas))
        else RunFrom(ps[1..], niche, count, key, generate, invoked + [p], errors + Entry(p, o))
  }

  /** `generateIdeasWithFallback(niche, count, geminiApiKey)` as a run. */
  function Fallback(niche: string, count: int, key: Option<string>, generate: Generate): Run
  {
    RunFrom(Providers, niche, count, key, generate, [], [])
  }

  /** `generateIdeasWithFallback`: the `for` loop over `providers`. `invoked`
      records the providers whose `generate` the loop called. */
  method GenerateIdeasWithFallback(niche: string, count: int, geminiApiKey: Option<string>,
                                   generate: Generate)
    returns (result: Result<seq<Idea>>, ghost invoked: seq<Provider>)
    ensures result == Fallback(niche, count, geminiApiKey, generate).result
    ensures invoked == Fallback(niche, count, geminiApiKey, generate).invoked
  {
    var errors: seq<string> := [];
    invoked := [];
    var i := 0;
    while i < |Providers|
      invariant 0 <= i <= |Providers|
      invariant RunFrom(Providers[i..], niche, count, geminiApiKey, generate, invoked, errors)
        == Fallback(niche, count, geminiApiKey, generate)
    {
      var provider := Providers[i];
      assert Providers[i..][0] == provider && Providers[i..][1..] == Providers[i + 1..];
      if provider == Gemini && !Given(geminiApiKey) {
        i := i + 1;
        continue;
      }
      var outcome := generate(provider, niche, count, geminiApiKey);
      if Succeeds(outcome) {
        RunHit(Providers[i..], niche, count, geminiApiKey, generate, invoked, errors);
      } else {
        RunStep(Providers[i..], niche, count, geminiApiKey, generate, invoked, errors);
      }
      invoked := invoked + [provider];
      match outcome {
        case Returned(ideas) =>
          if |ideas| > 0 {
            result := Ok(ideas);
            return;
          }
          assert errors + Entry(provider, outcome) == errors;
        case Threw(m) =>
          errors := errors + [Name(provider) + ": " + m];
      }
      i := i + 1;
    }
    result := Err(FailureMessage(errors));
  }

  /** The providers of `ps` the loop calls when none of them succeeds: all of
      them except Gemini when no key is given. */
  function Attempted(ps: seq<Provider>, key: Option<string>): (q: seq<Provider>)
    ensures |q| <= |ps|
  {
    if ps == [] then []
    else if ps[0] == Gemini && !Given(key) then Attempted(ps[1..], key)
    else [ps[0]] + Attempted(ps[1..], key)
  }

  /** The entries of the providers of `ps` that throw, in order. */
  function ErrorEntries(ps: seq<Provider>, niche: string, count: int, key: Option<string>,
                        generate: Generate): seq<string>
  {
    if ps == [] then []
    else Entry(ps[0], generate(ps[0], niche, count, key)) + ErrorEntries(ps[1..], niche, count, key, generate)
  }

  /** A provider called that does not succeed passes the run on to the next
      provider, with its entry added. */
  lemma RunStep(ps: seq<Provider>, niche: string, count: int, key: Option<string>,
                generate: Generate, invoked: seq<Provider>, errors: seq<string>)
    requires ps != [] && !(ps[0] == Gemini && !Given(key))
    requires !Succeeds(generate(ps[0], niche, count, key))
    ensures RunFrom(ps, niche, count, key, generate, invoked, errors)
      == RunFrom(ps[1..], niche, count, key, generate, invoked + [ps[0]],
                 errors + Entry(ps[0], generate(ps[0], niche, count, key)))
  {
  }

  /** The skipping rule applied to the fixed provider list gives `Eligible`. */
  lemma AttemptedProviders(key: Option<string>)
    ensures Attempted(Providers, key) == Eligible(key)
  {
    var tail := [OpenRouter];
    assert Providers[1..] == [Gemini] + tail && Providers[1..][1..] == tail;
    assert Attempted(tail, key) == tail by {
      assert tail[1..] == [];
    }
  }

  /** A provider called that succeeds ends the run with its ideas. */
  lemma RunHit(ps: seq<Provider>, niche: string, count: int, key: Option<string>,
               generate: Generate, invoked: seq<Provider>, errors: seq<string>)
    requires ps != [] && !(ps[0] == Gemini && !Given(key))
    requires Succeeds(generate(ps[0], niche, count, key))
    ensures RunFrom(ps, niche, count, key, generate, invoked, errors)
      == Run(invoked + [ps[0]], errors, Ok(generate(ps[0], niche, count, key).ideas))
  {
  }

  /** The record of calls after one more call is still a prefix. */
  lemma InvokedStep(invoked: seq<Provider>, p: Provider, rest: seq<Provider>, got: seq<Provider>)
    requires |invoked| + 1 <= |got| <= |invoked| + 1 + |rest|
    requires got == (invoked + [p]) + rest[..|got| - |invoked| - 1]
    ensures got == invoked + ([p] + rest)[..|got| - |invoked|]
  {
    var m := |got| - |invoked|;
    assert ([p] + rest)[..m] == [p] + rest[..m - 1];
    assert (invoked + [p]) + rest[..m - 1] == invoked + ([p] + rest[..m - 1]);
  }

  /** The loop calls a prefix of the attempted providers, in order. */
  lemma {:induction false} RunInvoked(ps: seq<Provider>, niche: string, count: int, key: Option<string>,
                                      generate: Generate, invoked: seq<Provider>, errors: seq<string>)
    ensures var run := RunFrom(ps, niche, count, key, generate, invoked, errors);
      var q := Attempted(ps, key);
      |invoked| <= |run.invoked| <= |invoked| + |q|
      && run.invoked == invoked + q[..|run.invoked| - |invoked|]
    decreases |ps|
  {
    if ps != [] {
      var p := ps[0];
      var q := Attempted(ps, key);
      if p == Gemini && !Given(key) {
        RunInvoked(ps[1..], niche, count, key, generate, invoked, errors);
      } else {
        var o := generate(p, niche, count, key);
        var rest := Attempted(ps[1..], key);
        assert q == [p] + rest;
        if !Succeeds(o) {
          RunInvoked(ps[1..], niche, count, key, generate, invoked + [p], errors + Entry(p, o));
          RunStep(ps, niche, count, key, generate, invoked, errors);
          InvokedStep(invoked, p, rest, RunFrom(ps, niche, count, key, generate, invoked, errors).invoked);
        } else {
          RunHit(ps, niche, count, key, generate, invoked, errors);
          assert q[..1] == [p];
        }
      }
    }
  }

  /** When the loop returns ideas, they are those of the last provider it
      called, which succeeded, and none called before it succeeded. */
  lemma {:induction false} RunSucceeded(ps: seq<Provider>, niche: string, count: int, key: Option<string>,
                                        generate: Generate, invoked: seq<Provider>, errors: seq<string>)
    ensures var run := RunFrom(ps, niche, count, key, generate, invoked, errors);
      var q := Attempted(ps, key);
      var m := |run.invoked| - |invoked|;
      run.result.Ok? ==>
        0 < m <= |q| && Succeeds(generate(q[m - 1], niche, count, key))
        && run.result.value == generate(q[m - 1], niche, count, key).ideas
        && forall j :: 0 <= j < m - 1 ==> !Succeeds(generate(q[j], niche, count, key))
    decreases |ps|
  {
    RunInvoked(ps, niche, count, key, generate, invoked, errors);
    if ps != [] {
      var p := ps[0];
      var q := Attempted(ps, key);
      if p == Gemini && !Given(key) {
        RunSucceeded(ps[1..], niche, count, key, generate, invoked, errors);
      } else {
        var o := generate(p, niche, count, key);
        var rest := Attempted(ps[1..], key);
        assert q == [p] + rest;
        if !Succeeds(o) {
          RunSucceeded(ps[1..], niche, count, key, generate, invoked + [p], errors + Entry(p, o));
          RunStep(ps, niche, count, key, generate, invoked, errors);
          forall j | 1 <= j < |q| ensures q[j] == rest[j - 1] { }
        }
      }
    }
  }

  /** When the loop returns no ideas, it called every attempted provider and
      none of them succeeded. */
  lemma {:induction false} RunFailedCalls(ps: seq<Provider>, niche: string, count: int, key: Option<string>,
                                          generate: Generate, invoked: seq<Provider>, errors: seq<string>)
    ensures var run := RunFrom(ps, niche, count, key, generate, invoked, errors);
      var q := Attempted(ps, key);
      run.result.Err? ==>
        |run.invoked| == |invoked| + |q|
        && forall j :: 0 <= j < |q| ==> !Succeeds(generate(q[j], niche, count, key))
    decreases |ps|
  {
    if ps != [] {
      var p := ps[0];
      if p == Gemini && !Given(key) {
        RunFailedCalls(ps[1..], niche, count, key, generate, invoked, errors);
      } else {
        var o := generate(p, niche, count, key);
        var q := Attempted(ps, key);
        var rest := Attempted(ps[1..], key);
        assert q == [p] + rest;
        if !Succeeds(o) {
          RunFailedCalls(ps[1..], niche, count, key, generate, invoked + [p], errors + Entry(p, o));
          RunStep(ps, niche, count, key, generate, invoked, errors);
          forall j | 1 <= j < |q| ensures q[j] == rest[j - 1] { }
        }
      }
    }
  }

  /** When the loop returns no ideas, the error carries the entries of the
      attempted providers that threw, in order, after the fixed prefix. */
  lemma {:induction false} RunFailedErrors(ps: seq<Provider>, niche: string, count: int, key: Option<string>,
                                           generate: Generate, invoked: seq<Provider>, errors: seq<string>)
    ensures var run := RunFrom(ps, niche, count, key, generate, invoked, errors);
      run.result.Err? ==>
        run.errors == errors + ErrorEntries(Attempted(ps, key), niche, count, key, generate)
        && run.result.message == FailureMessage(run.errors)
    decreases |ps|
  {
    if ps == [] {
      assert errors + [] == errors;
    } else {
      var p := ps[0];
      if p == Gemini && !Given(key) {
        RunFailedErrors(ps[1..], niche, count, key, generate, invoked, errors);
      } else {
        var o := generate(p, niche, count, key);
        var rest := Attempted(ps[1..], key);
        assert Attempted(ps, key) == [p] + rest;
        if !Succeeds(o) {
          RunFailedErrors(ps[1..], niche, count, key, generate, invoked + [p], errors + Entry(p, o));
          RunStep(ps, niche, count, key, generate, invoked, errors);
          assert ErrorEntries([p] + rest, niche, count, key, generate)
            == Entry(p, o) + ErrorEntries(rest, niche, count, key, generate);
        }
      }
    }
  }

  /** Providers are called in the fixed order, all with the same arguments,
      never Gemini without a key, and none after the first that succeeds:
      the ideas returned are those of the last provider called, and every
      provider called before it failed. */
  lemma FallbackOrder(niche: string, count: int, key: Option<string>, generate: Generate)
    ensures var run := Fallback(niche, count, key, generate);
      |run.invoked| <= |Eligible(key)| && run.invoked == Eligible(key)[..|run.invoked|]
      && (!Given(key) ==> Gemini !in run.invoked)
    ensures var run := Fallback(niche, count, key, generate);
      run.result.Ok? ==>
        |run.invoked| > 0
        && run.result.value == generate(run.invoked[|run.invoked| - 1], niche, count, key).ideas
        && forall j :: 0 <= j < |run.invoked| - 1 ==> !Succeeds(generate(run.invoked[j], niche, count, key))
  {
    RunInvoked(Providers, niche, count, key, generate, [], []);
    RunSucceeded(Providers, niche, count, key, generate, [], []);
    AttemptedProviders(key);
    var run := Fallback(niche, count, key, generate);
    forall j | 0 <= j < |run.invoked| ensures run.invoked[j] == Eligible(key)[j] {
    }
  }

  /** The function returns ideas exactly when some provider it may call
      succeeds, and then it returns those of the first such provider. */
  lemma FallbackSuccess(niche: string, count: int, key: Option<string>, generate: Generate)
    ensures var run := Fallback(niche, count, key, generate);
      var e := Eligible(key);
      (run.result.Ok? <==> exists j :: 0 <= j < |e| && Succeeds(generate(e[j], niche, count, key)))
      && (run.result.Ok? ==>
            exists j :: 0 <= j < |e|
              && Succeeds(generate(e[j], niche, count, key))
              && run.result.value == generate(e[j], niche, count, key).ideas
              && forall i :: 0 <= i < j ==> !Succeeds(generate(e[i], niche, count, key)))
  {
    RunSucceeded(Providers, niche, count, key, generate, [], []);
    RunFailedCalls(Providers, niche, count, key, generate, [], []);
    AttemptedProviders(key);
    var run := Fallback(niche, count, key, generate);
    if run.result.Ok? {
      var j := |run.invoked| - 1;
      assert Succeeds(generate(Eligible(key)[j], niche, count, key));
    }
  }

  /** When no provider yields ideas, every provider it may call was called,
      and the error is the fixed prefix followed by the entries of the
      providers that threw, in order, joined by "; ". A provider that
      resolved to an empty list leaves no entry. */
  lemma FallbackFailure(niche: string, count: int, key: Option<string>, generate: Generate)
    ensures var run := Fallback(niche, count, key, generate);
      run.result.Err? ==>
        run.invoked == Eligible(key)
        && run.result.message
           == FailurePrefix + Join(ErrorEntries(Eligible(key), niche, count, key, generate), "; ")
  {
    RunFailedCalls(Providers, niche, count, key, generate, [], []);
    RunFailedErrors(Providers, niche, count, key, generate, [], []);
    RunInvoked(Providers, niche, count, key, generate, [], []);
    AttemptedProviders(key);
    var run := Fallback(niche, count, key, generate);
    if run.result.Err? {
      assert run.invoked == Eligible(key)[..|Eligible(key)|];
      var entries := ErrorEntries(Eligible(key), niche, count, key, generate);
      assert run.errors == [] + entries == entries;
    }
  }
}
