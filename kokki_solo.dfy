/** The run-list driver of kokki/kokki_solo.py: the `recipe[...]` and `role[...]` patterns, `process_role`,
    and the checks and run-list loop of `main`. */
module KokkiSolo {
  import opened Runtime
  import Paths

  // ---------------------------------------------------------------------------------------------
  // The two run-list patterns
  // ---------------------------------------------------------------------------------------------

  /** A successful `re.match`: group 0 is the matched text, group 1 the text between the brackets. */
  datatype Match = Match(group0: string, group1: string)

  /** `re.compile('^' + keyword + '\[(.*)\]$').match(s)`. `.*` is greedy and stops at no character but a
      newline, and `$` matches at the end of `s` or just before a final '\n', which is then left out of
      group 0. */
  function MatchBracketed(keyword: string, s: string): (m: Option<Match>)
    ensures m.Some? ==> m.value.group0 == keyword + "[" + m.value.group1 + "]"
    ensures m.Some? ==> '\n' !in m.value.group1
    ensures m.Some? ==> s == m.value.group0 || s == m.value.group0 + "\n"
  {
    var t := if |s| > 0 && s[|s| - 1] == '\n' then s[..|s| - 1] else s;
    var n := |keyword| + 1;
    if |t| > n && t[..n] == keyword + "[" && t[|t| - 1] == ']' && '\n' !in t[n..|t| - 1] then
      assert t == t[..n] + t[n..|t| - 1] + "]";
      Some(Match(t, t[n..|t| - 1]))
    else None
  }

  /** Every bracketed token matches, with or without a final newline, whatever brackets its text holds:
      the text between the outer brackets is group 1 and the token without the newline is group 0. */
  lemma {:induction false} MatchBracketedComplete(keyword: string, x: string, trailingNewline: bool)
    requires '\n' !in x
    ensures var token := Token(keyword, x);
      MatchBracketed(keyword, if trailingNewline then token + "\n" else token) == Some(Match(token, x))
  {
    var token := Token(keyword, x);
    var s := if trailingNewline then token + "\n" else token;
    var n := |keyword| + 1;
    assert s[..|s| - 1] == token || s == token;
    assert token[..n] == keyword + "[";
    assert token[n..|token| - 1] == x;
  }

  /** The module-level `recipe` pattern. */
  function RecipeMatch(s: string): Option<Match> {
    MatchBracketed("recipe", s)
  }

  /** The module-level `role` pattern. */
  function RoleMatch(s: string): Option<Match> {
    MatchBracketed("role", s)
  }

  /** No token is both a recipe reference and a role reference. */
  lemma RecipeAndRoleExclusive(s: string)
    ensures !(RecipeMatch(s).Some? && RoleMatch(s).Some?)
  {
    assert RecipeMatch(s).Some? ==> s[1] == 'e' by {
      if RecipeMatch(s).Some? {
        var g := RecipeMatch(s).value.group0;
        assert s[1] == g[1];
      }
    }
    assert RoleMatch(s).Some? ==> s[1] == 'o' by {
      if RoleMatch(s).Some? {
        var h := RoleMatch(s).value.group0;
        assert s[1] == h[1];
      }
    }
  }

  // ---------------------------------------------------------------------------------------------
  // The Kitchen and the JSON documents it is driven from
  // ---------------------------------------------------------------------------------------------

  /** A JSON file on disk as `json.load` reads it: a value, or text it rejects. */
  datatype Document = Unparsable | Json(value: Value)

  /** What the run-list driver can observe of a Kitchen: its configuration and the recipes it was asked to
      include, in order. */
  datatype KitchenState = KitchenState(config: map<string, Value>, included: seq<string>)

  /** The Kitchen the driver feeds: its configuration mapping, the trace of `include_recipe` calls, the
      cookbook paths added, and whether `run` was called. */
  class Kitchen {
    var config: map<string, Value>
    var included: seq<string>
    var cookbookPaths: seq<string>
    var ran: bool

    constructor ()
      ensures config == map[] && included == [] && cookbookPaths == [] && !ran
    {
      config := map[];
      included := [];
      cookbookPaths := [];
      ran := false;
    }

    function State(): KitchenState
      reads this
    {
      KitchenState(config, included)
    }

    method AddCookbookPath(path: string)
      modifies this
      ensures cookbookPaths == old(cookbookPaths) + [path]
      ensures config == old(config) && included == old(included) && ran == old(ran)
    {
      cookbookPaths := cookbookPaths + [path];
    }

    method IncludeRecipe(name: string)
      modifies this
      ensures included == old(included) + [name]
      ensures config == old(config) && cookbookPaths == old(cookbookPaths) && ran == old(ran)
    {
      included := included + [name];
    }

    /** `config.update(data)`, each key of `data` replacing the one in `config`. */
    method UpdateConfig(data: map<string, Value>)
      modifies this
      ensures config == old(config) + data
      ensures included == old(included) && cookbookPaths == old(cookbookPaths) && ran == old(ran)
    {
      config := config + data;
    }

    method Run()
      modifies this
      ensures ran
      ensures config == old(config) && included == old(included) && cookbookPaths == old(cookbookPaths)
    {
      ran := true;
    }
  }

  /** `v[key]` on a decoded JSON value. */
  function Lookup(v: Value, key: string): Result<Value> {
    match v
    case Dict(entries) => if key in entries then Ok(entries[key]) else Err(KeyError(key))
    case _ => Err(TypeError("indices must be integers"))
  }

  /** What `for item in v` walks over: a list's items, or a string's characters. */
  function Iterate(v: Value): Result<seq<Value>> {
    match v
    case List(items) => Ok(items)
    case Str(s) => Ok(seq(|s|, i requires 0 <= i < |s| => Str([s[i]])))
    case _ => Err(TypeError("object is not iterable"))
  }

  /** `config.update(data)` for the `data` of a role: a JSON object overwrites the top-level keys it names. */
  function Update(config: map<string, Value>, data: Value): Result<map<string, Value>> {
    match data
    case Dict(entries) => Ok(config + entries)
    case _ => Err(TypeError("cannot update a mapping from a non-mapping"))
  }

  const NoJsonObject := "No JSON object could be decoded"
  const ExpectedString := "expected string or buffer"
  /** Inside `process_role` the name `role` is the loaded role, so `role.match` fails. */
  const DictHasNoMatch := "'dict' object has no attribute 'match'"

  /** What a run-list has done so far: the Kitchen's state and the exception that stopped it, if any. */
  datatype Step = Step(state: KitchenState, error: Option<Exception>)

  /** `os.path.join(file_cache_path, 'roles', json_role)`: the role's name is used as the file name. */
  function RolePath(fileCachePath: string, name: string): string {
    Paths.Join(Paths.Join(fileCachePath, "roles"), name)
  }

  /** For a cache directory without a trailing '/' and a relative name, the role file is
      `<file_cache_path>/roles/<name>`, with no suffix added. */
  lemma RolePathUnderRoles(fileCachePath: string, name: string)
    requires fileCachePath != "" && fileCachePath[|fileCachePath| - 1] != '/' && !Paths.IsAbsolute(name)
    ensures RolePath(fileCachePath, name) == fileCachePath + "/roles/" + name
  {
    Paths.JoinUnder(fileCachePath, "roles", name);
    assert fileCachePath + "/" + "roles" + "/" + name == fileCachePath + "/roles/" + name;
  }

  // ---------------------------------------------------------------------------------------------
  // process_role
  // ---------------------------------------------------------------------------------------------

  /** One item of a role's run-list: a recipe token is included whole (group 0); any other string reaches
      `role.match` on the loaded dict and fails; a non-string fails the recipe pattern. */
  function RoleItem(st: KitchenState, item: Value): (r: Step)
    ensures r.state.config == st.config
    ensures r.error.None? <==> item.Str? && RecipeMatch(item.s).Some?
    ensures r.error.None? ==> exists token ::
      && '\n' !in token && r.state.included == st.included + [token]
      && (item.s == token || item.s == token + "\n")
    ensures r.error.Some? ==> r.state == st
  {
    match item
    case Str(s) =>
      (match RecipeMatch(s)
       case Some(m) => Step(st.(included := st.included + [m.group0]), None)
       case None => Step(st, Some(AttributeError(DictHasNoMatch))))
    case _ => Step(st, Some(TypeError(ExpectedString)))
  }

  /** A role's run-list, item by item, up to the first failure. It leaves the configuration alone and
      only adds to the recipes included. */
  function RoleWalk(st: KitchenState, items: seq<Value>): (r: Step)
    ensures r.state.config == st.config
    ensures st.included <= r.state.included
    decreases items
  {
    if items == [] then Step(st, None)
    else
      var first := RoleItem(st, items[0]);
      if first.error.Some? then first
      else
        RoleWalk(first.state, items[1..])
  }

  lemma {:induction false} RoleWalkAppend(st: KitchenState, a: seq<Value>, b: seq<Value>)
    ensures RoleWalk(st, a + b) == (var s := RoleWalk(st, a); if s.error.Some? then s else RoleWalk(s.state, b))
    decreases a
  {
    if a == [] {
      assert a + b == b;
    } else {
      assert (a + b)[0] == a[0];
      assert (a + b)[1..] == a[1..] + b;
      var first := RoleItem(st, a[0]);
      if first.error.None? {
        RoleWalkAppend(first.state, a[1..], b);
      }
    }
  }

  /** `process_role(kit, name, file_cache_path)` as a function of the Kitchen's state and the files on disk. */
  function RoleEffect(docs: map<string, Document>, fileCachePath: string, st: KitchenState, name: string): (r: Step)
    ensures RolePath(fileCachePath, name) !in docs ==> r == Step(st, Some(IOError(RolePath(fileCachePath, name))))
    ensures RolePath(fileCachePath, name) in docs && docs[RolePath(fileCachePath, name)].Unparsable? ==>
      r == Step(st, Some(ValueError(NoJsonObject)))
    ensures st.included <= r.state.included
  {
    var path := RolePath(fileCachePath, name);
    if path !in docs then Step(st, Some(IOError(path)))
    else match docs[path]
      case Unparsable => Step(st, Some(ValueError(NoJsonObject)))
      case Json(role) =>
        match Lookup(role, "data")
        case Err(e) => Step(st, Some(e))
        case Ok(data) =>
          match Update(st.config, data)
          case Err(e) => Step(st, Some(e))
          case Ok(config) =>
            var updated := st.(config := config);
            match Lookup(role, "run_list")
            case Err(e) => Step(updated, Some(e))
            case Ok(runList) =>
              match Iterate(runList)
              case Err(e) => Step(updated, Some(e))
              case Ok(items) => RoleWalk(updated, items)
  }

  /** The run-list token `keyword[x]`. */
  function Token(keyword: string, x: string): string {
    keyword + "[" + x + "]"
  }

  /** The tokens `recipe[x]` for each name `x`, in order. */
  function RecipeTokens(recipes: seq<string>): seq<string> {
    if recipes == [] then [] else [Token("recipe", recipes[0])] + RecipeTokens(recipes[1..])
  }

  /** A run-list of the given strings, as decoded from JSON. */
  function Strs(tokens: seq<string>): seq<Value> {
    if tokens == [] then [] else [Str(tokens[0])] + Strs(tokens[1..])
  }

  /** A role's run-list includes its leading recipe tokens whole (`recipe[x]`, not `x`), in order, before
      it goes on with the rest. */
  lemma {:induction false} RoleWalkIncludesRecipeTokens(st: KitchenState, recipes: seq<string>, rest: seq<Value>)
    requires forall j :: 0 <= j < |recipes| ==> '\n' !in recipes[j]
    ensures RoleWalk(st, Strs(RecipeTokens(recipes)) + rest) ==
            RoleWalk(st.(included := st.included + RecipeTokens(recipes)), rest)
    decreases recipes
  {
    if recipes == [] {
      assert Strs(RecipeTokens(recipes)) + rest == rest;
      assert st.included + [] == st.included;
    } else {
      var next := RoleWalkFirstRecipeToken(st, recipes, rest);
      RoleWalkIncludesRecipeTokens(next, recipes[1..], rest);
      IncludedAfterFirstToken(st.included, recipes);
    }
  }

  /** One step of the induction above: the first recipe token is included whole. */
  lemma RoleWalkFirstRecipeToken(st: KitchenState, recipes: seq<string>, rest: seq<Value>) returns (next: KitchenState)
    requires recipes != [] && '\n' !in recipes[0]
    ensures next == st.(included := st.included + [Token("recipe", recipes[0])])
    ensures RoleWalk(st, Strs(RecipeTokens(recipes)) + rest) == RoleWalk(next, Strs(RecipeTokens(recipes[1..])) + rest)
  {
    var token := Token("recipe", recipes[0]);
    var tail := Strs(RecipeTokens(recipes[1..])) + rest;
    next := st.(included := st.included + [token]);
    RecipeTokensCons(recipes, rest);
    RecipeTokenMatches(recipes[0]);
    RoleWalkRecipeFirst(st, token, tail);
  }

  lemma RecipeTokensCons(recipes: seq<string>, rest: seq<Value>)
    requires recipes != []
    ensures RecipeTokens(recipes) == [Token("recipe", recipes[0])] + RecipeTokens(recipes[1..])
    ensures Strs(RecipeTokens(recipes)) + rest == [Str(Token("recipe", recipes[0]))] + (Strs(RecipeTokens(recipes[1..])) + rest)
  {
    var tokens := RecipeTokens(recipes);
    assert tokens[1..] == RecipeTokens(recipes[1..]);
  }

  lemma IncludedAfterFirstToken(included: seq<string>, recipes: seq<string>)
    requires recipes != []
    ensures included + [Token("recipe", recipes[0])] + RecipeTokens(recipes[1..]) == included + RecipeTokens(recipes)
  {
    RecipeTokensCons(recipes, []);
  }

  /** `recipe[x]` matches the recipe pattern with `x` as its bracket contents. */
  lemma RecipeTokenMatches(x: string)
    requires '\n' !in x
    ensures RecipeMatch(Token("recipe", x)) == Some(Match(Token("recipe", x), x))
  {
    MatchBracketedComplete("recipe", x, false);
  }

  /** A recipe token at the head of a role's run-list is included whole before the rest is walked. */
  lemma RoleWalkRecipeFirst(st: KitchenState, token: string, rest: seq<Value>)
    requires RecipeMatch(token).Some?
    ensures RoleWalk(st, [Str(token)] + rest) == RoleWalk(st.(included := st.included + [RecipeMatch(token).value.group0]), rest)
  {
    assert ([Str(token)] + rest)[1..] == rest;
  }

  /** Whatever a role's run-list holds, it adds to the Kitchen only whole `recipe[...]` tokens. */
  lemma {:induction false} RoleIncludesOnlyRecipeTokens(st: KitchenState, items: seq<Value>, k: int)
    requires |st.included| <= k < |RoleWalk(st, items).state.included|
    ensures RecipeMatch(RoleWalk(st, items).state.included[k]).Some?
    ensures exists x :: '\n' !in x && RoleWalk(st, items).state.included[k] == Token("recipe", x)
    decreases items
  {
    var first := RoleItem(st, items[0]);
    if k == |st.included| {
      var m := RecipeMatch(items[0].s).value;
      MatchBracketedComplete("recipe", m.group1, false);
      assert RoleWalk(st, items).state.included[k] == first.state.included[k] == m.group0 == Token("recipe", m.group1);
    } else {
      RoleIncludesOnlyRecipeTokens(first.state, items[1..], k);
    }
  }

  /** The first item of a role's run-list that is a string but not a recipe token ends the walk with the
      AttributeError of `role.match`, whatever that string names. */
  lemma NonRecipeItemFailsRole(st: KitchenState, s: string, rest: seq<Value>)
    requires RecipeMatch(s).None?
    ensures RoleWalk(st, [Str(s)] + rest) == Step(st, Some(AttributeError(DictHasNoMatch)))
  {
    assert ([Str(s)] + rest)[0] == Str(s);
  }

  /** `process_role` on a file that exists and parses with a `data` object and a `run_list` list. */
  lemma RoleWithDataAndRunList(docs: map<string, Document>, fileCachePath: string, st: KitchenState, name: string,
                               data: map<string, Value>, items: seq<Value>)
    requires RolePath(fileCachePath, name) in docs
    requires docs[RolePath(fileCachePath, name)] == Json(Dict(map["data" := Dict(data), "run_list" := List(items)]))
    ensures RoleEffect(docs, fileCachePath, st, name) == RoleWalk(st.(config := st.config + data), items)
  {
    var entries := map["data" := Dict(data), "run_list" := List(items)];
    assert Lookup(Dict(entries), "data") == Ok(Dict(data));
    assert Lookup(Dict(entries), "run_list") == Ok(List(items));
  }

  /** `process_role` reads one file, the one named by the role, and applies that file's `data` before it
      looks at the run-list: the configuration afterwards is the old one updated with exactly that `data`,
      whether the run-list then succeeds or fails, and no other role's `data` is ever applied. */
  lemma RoleAppliesOwnDataFirst(docs: map<string, Document>, fileCachePath: string, st: KitchenState, name: string,
                                data: map<string, Value>)
    requires RolePath(fileCachePath, name) in docs
    requires docs[RolePath(fileCachePath, name)].Json?
    requires Lookup(docs[RolePath(fileCachePath, name)].value, "data") == Ok(Dict(data))
    ensures RoleEffect(docs, fileCachePath, st, name).state.config == st.config + data
    ensures RoleEffect(docs, fileCachePath, st, name) ==
            RoleEffect(map[RolePath(fileCachePath, name) := docs[RolePath(fileCachePath, name)]], fileCachePath, st, name)
  {
  }

  /** A role whose run-list names another role fails at that item: the nested role's file is never read,
      the role's own `data` stays applied, and the recipes listed before it are included whole. */
  lemma {:induction false} NestedRoleIsNeverProcessed(docs: map<string, Document>, fileCachePath: string,
                                                     st: KitchenState, name: string, data: map<string, Value>,
                                                     recipes: seq<string>, nested: string)
    requires '\n' !in nested && forall j :: 0 <= j < |recipes| ==> '\n' !in recipes[j]
    requires RolePath(fileCachePath, name) in docs
    requires docs[RolePath(fileCachePath, name)] ==
      Json(Dict(map["data" := Dict(data),
                    "run_list" := List(Strs(RecipeTokens(recipes)) + [Str(Token("role", nested))])]))
    ensures RoleEffect(docs, fileCachePath, st, name) ==
      Step(KitchenState(st.config + data, st.included + RecipeTokens(recipes)), Some(AttributeError(DictHasNoMatch)))
  {
    var roleToken := Token("role", nested);
    RoleWithDataAndRunList(docs, fileCachePath, st, name, data, Strs(RecipeTokens(recipes)) + [Str(roleToken)]);
    var updated := st.(config := st.config + data);
    RoleWalkIncludesRecipeTokens(updated, recipes, [Str(roleToken)]);
    MatchBracketedComplete("role", nested, false);
    RecipeAndRoleExclusive(roleToken);
    NonRecipeItemFailsRole(updated.(included := updated.included + RecipeTokens(recipes)), roleToken, []);
    assert [Str(roleToken)] + [] == [Str(roleToken)];
  }

  /** The walk of the first `i + 1` items of a run-list extends that of the first `i` by one item. */
  lemma RoleWalkStep(st: KitchenState, items: seq<Value>, i: nat)
    requires i < |items|
    ensures RoleWalk(st, items[..i + 1]) ==
      (var s := RoleWalk(st, items[..i]); if s.error.Some? then s else RoleItem(s.state, items[i]))
  {
    var item := items[i];
    RoleWalkAppend(st, items[..i], [item]);
    assert items[..i + 1] == items[..i] + [item];
    assert [item][1..] == [];
  }

  /** Once the walk of a prefix of a run-list has failed, the walk of the whole run-list has failed with it. */
  lemma RoleWalkStopsEarly(st: KitchenState, items: seq<Value>, i: nat)
    requires i <= |items| && RoleWalk(st, items[..i]).error.Some?
    ensures RoleWalk(st, items) == RoleWalk(st, items[..i])
  {
    RoleWalkAppend(st, items[..i], items[i..]);
    assert items[..i] + items[i..] == items;
  }

  /** When the role file parses and has a `data` object and an iterable `run_list`, `process_role` is the
      walk of that run-list from the updated configuration. */
  lemma RoleEffectWalksRunList(docs: map<string, Document>, fileCachePath: string, st: KitchenState, name: string,
                               data: map<string, Value>, items: seq<Value>)
    requires RolePath(fileCachePath, name) in docs && docs[RolePath(fileCachePath, name)].Json?
    requires Lookup(docs[RolePath(fileCachePath, name)].value, "data") == Ok(Dict(data))
    requires Lookup(docs[RolePath(fileCachePath, name)].value, "run_list").Ok?
    requires Iterate(Lookup(docs[RolePath(fileCachePath, name)].value, "run_list").value) == Ok(items)
    ensures RoleEffect(docs, fileCachePath, st, name) == RoleWalk(st.(config := st.config + data), items)
  {
  }

  /** `process_role`: loads the role file, applies its `data`, then walks its run-list. */
  method ProcessRole(kit: Kitchen, jsonRole: string, fileCachePath: string, docs: map<string, Document>)
    returns (error: Option<Exception>)
    modifies kit
    ensures Step(kit.State(), error) == RoleEffect(docs, fileCachePath, old(kit.State()), jsonRole)
    ensures kit.cookbookPaths == old(kit.cookbookPaths) && kit.ran == old(kit.ran)
  {
    var path := RolePath(fileCachePath, jsonRole);
    if path !in docs {
      return Some(IOError(path));
    }
    if docs[path].Unparsable? {
      return Some(ValueError(NoJsonObject));
    }
    var role := docs[path].value;
    var data := Lookup(role, "data");
    if data.Err? {
      return Some(data.error);
    }
    if !data.value.Dict? {
      return Some(TypeError("cannot update a mapping from a non-mapping"));
    }
    kit.UpdateConfig(data.value.entries);
    var runList := Lookup(role, "run_list");
    if runList.Err? {
      return Some(runList.error);
    }
    var items := Iterate(runList.value);
    if items.Err? {
      return Some(items.error);
    }
    RoleEffectWalksRunList(docs, fileCachePath, old(kit.State()), jsonRole, data.value.entries, items.value);
    error := WalkRoleRunList(kit, items.value);
  }

  /** The `for run_item in role['run_list']` loop of `process_role`: recipe tokens are included whole, and
      anything else ends the loop with an exception. */
  method WalkRoleRunList(kit: Kitchen, runItems: seq<Value>) returns (error: Option<Exception>)
    modifies kit
    ensures Step(kit.State(), error) == RoleWalk(old(kit.State()), runItems)
    ensures kit.cookbookPaths == old(kit.cookbookPaths) && kit.ran == old(kit.ran)
  {
    ghost var start := kit.State();
    var i := 0;
    assert runItems[..0] == [];
    while i < |runItems|
      invariant 0 <= i <= |runItems|
      invariant RoleWalk(start, runItems[..i]) == Step(kit.State(), None)
      invariant kit.cookbookPaths == old(kit.cookbookPaths) && kit.ran == old(kit.ran)
    {
      var runItem := runItems[i];
      RoleWalkStep(start, runItems, i);
      if !runItem.Str? {
        RoleWalkStopsEarly(start, runItems, i + 1);
        return Some(TypeError(ExpectedString));
      }
      var recipeMatch := RecipeMatch(runItem.s);
      if recipeMatch.Some? {
        kit.IncludeRecipe(recipeMatch.value.group0);
        i := i + 1;
        continue;
      }
      RoleWalkStopsEarly(start, runItems, i + 1);
      return Some(AttributeError(DictHasNoMatch));
    }
    assert runItems[..i] == runItems;
    error := None;
  }

  // ---------------------------------------------------------------------------------------------
  // main
  // ---------------------------------------------------------------------------------------------

  /** One item of the node's run-list: a recipe token includes the bracket contents (group 1); a role token
      processes the role named by its bracket contents; any other string is dropped; a non-string fails
      the recipe pattern. The recipe pattern is tried first. */
  function NodeItem(docs: map<string, Document>, fileCachePath: string, st: KitchenState, item: Value): (r: Step)
    ensures st.included <= r.state.included
    ensures r.error.Some? || r.state.config != st.config ==> !item.Str? || RoleMatch(item.s).Some?
    ensures !item.Str? ==> r == Step(st, Some(TypeError(ExpectedString)))
  {
    match item
    case Str(s) =>
      (match RecipeMatch(s)
       case Some(m) => Step(st.(included := st.included + [m.group1]), None)
       case None =>
         match RoleMatch(s)
         case Some(m) => RoleEffect(docs, fileCachePath, st, m.group1)
         case None => Step(st, None))
    case _ => Step(st, Some(TypeError(ExpectedString)))
  }

  /** The node's run-list, item by item, up to the first failure. */
  function NodeWalk(docs: map<string, Document>, fileCachePath: string, st: KitchenState, items: seq<Value>): (r: Step)
    ensures st.included <= r.state.included
    decreases items
  {
    if items == [] then Step(st, None)
    else
      var first := NodeItem(docs, fileCachePath, st, items[0]);
      if first.error.Some? then first else NodeWalk(docs, fileCachePath, first.state, items[1..])
  }

  /** A node run-list without role tokens, all of whose items are strings, never raises and never touches
      the configuration. */
  lemma {:induction false} RoleFreeRunListNeverFails(docs: map<string, Document>, fileCachePath: string,
                                                     st: KitchenState, items: seq<Value>)
    requires forall k :: 0 <= k < |items| ==> items[k].Str? && RoleMatch(items[k].s).None?
    ensures var r := NodeWalk(docs, fileCachePath, st, items); r.error.None? && r.state.config == st.config
    decreases items
  {
    if items != [] {
      var first := NodeItem(docs, fileCachePath, st, items[0]);
      assert first.error.None? && first.state.config == st.config;
      RoleFreeRunListNeverFails(docs, fileCachePath, first.state, items[1..]);
    }
  }

  lemma {:induction false} NodeWalkAppend(docs: map<string, Document>, fileCachePath: string, st: KitchenState,
                                          a: seq<Value>, b: seq<Value>)
    ensures NodeWalk(docs, fileCachePath, st, a + b) ==
      (var s := NodeWalk(docs, fileCachePath, st, a); if s.error.Some? then s else NodeWalk(docs, fileCachePath, s.state, b))
    decreases a
  {
    if a == [] {
      assert a + b == b;
    } else {
      assert (a + b)[0] == a[0];
      assert (a + b)[1..] == a[1..] + b;
      var first := NodeItem(docs, fileCachePath, st, a[0]);
      if first.error.None? {
        NodeWalkAppend(docs, fileCachePath, first.state, a[1..], b);
      }
    }
  }

  /** The walk of the first `i + 1` items of the node's run-list extends that of the first `i` by one item. */
  lemma NodeWalkStep(docs: map<string, Document>, fileCachePath: string, st: KitchenState, items: seq<Value>, i: nat)
    requires i < |items|
    ensures NodeWalk(docs, fileCachePath, st, items[..i + 1]) ==
      (var s := NodeWalk(docs, fileCachePath, st, items[..i]);
       if s.error.Some? then s else NodeItem(docs, fileCachePath, s.state, items[i]))
  {
    var item := items[i];
    assert items[..i + 1] == items[..i] + [item];
    NodeWalkAppend(docs, fileCachePath, st, items[..i], [item]);
    var s := NodeWalk(docs, fileCachePath, st, items[..i]);
    if s.error.None? {
      NodeWalkSingle(docs, fileCachePath, s.state, item);
    }
  }

  /** A run-list of one item does what that item does. */
  lemma NodeWalkSingle(docs: map<string, Document>, fileCachePath: string, st: KitchenState, item: Value)
    ensures NodeWalk(docs, fileCachePath, st, [item]) == NodeItem(docs, fileCachePath, st, item)
  {
    assert [item][1..] == [];
  }

  /** Once the walk of a prefix of the node's run-list has failed, the whole walk has failed with it. */
  lemma NodeWalkStopsEarly(docs: map<string, Document>, fileCachePath: string, st: KitchenState, items: seq<Value>, i: nat)
    requires i <= |items| && NodeWalk(docs, fileCachePath, st, items[..i]).error.Some?
    ensures NodeWalk(docs, fileCachePath, st, items) == NodeWalk(docs, fileCachePath, st, items[..i])
  {
    var before, after := items[..i], items[i..];
    assert before + after == items;
    NodeWalkAppend(docs, fileCachePath, st, before, after);
  }

  /** A string that is neither a recipe nor a role token has no effect at all: removing it from a run-list
      changes nothing. */
  lemma {:induction false} UnrecognizedTokenIsDropped(docs: map<string, Document>, fileCachePath: string,
                                                      st: KitchenState, before: seq<Value>, token: string,
                                                      after: seq<Value>)
    requires RecipeMatch(token).None? && RoleMatch(token).None?
    ensures NodeWalk(docs, fileCachePath, st, before + [Str(token)] + after) ==
            NodeWalk(docs, fileCachePath, st, before + after)
  {
    NodeWalkAppend(docs, fileCachePath, st, before + [Str(token)], after);
    NodeWalkAppend(docs, fileCachePath, st, before, [Str(token)]);
    NodeWalkAppend(docs, fileCachePath, st, before, after);
    var s := NodeWalk(docs, fileCachePath, st, before);
    if s.error.None? {
      assert [Str(token)][1..] == [];
    }
  }

  /** A node run-list of recipe tokens includes their bracket contents, in the order listed, and nothing
      else changes. */
  lemma {:induction false} NodeRecipesInOrder(docs: map<string, Document>, fileCachePath: string, st: KitchenState,
                                              recipes: seq<string>)
    requires forall j :: 0 <= j < |recipes| ==> '\n' !in recipes[j]
    ensures NodeWalk(docs, fileCachePath, st, Strs(RecipeTokens(recipes))) == Step(st.(included := st.included + recipes), None)
    decreases recipes
  {
    if recipes == [] {
      assert st.included + recipes == st.included;
    } else {
      var next := NodeWalkFirstRecipeToken(docs, fileCachePath, st, recipes);
      NodeRecipesInOrder(docs, fileCachePath, next, recipes[1..]);
      AppendHead(st.included, recipes);
    }
  }

  /** One step of the induction above: the first recipe token includes its bracket contents. */
  lemma NodeWalkFirstRecipeToken(docs: map<string, Document>, fileCachePath: string, st: KitchenState,
                                 recipes: seq<string>) returns (next: KitchenState)
    requires recipes != [] && '\n' !in recipes[0]
    ensures next == st.(included := st.included + [recipes[0]])
    ensures NodeWalk(docs, fileCachePath, st, Strs(RecipeTokens(recipes))) ==
            NodeWalk(docs, fileCachePath, next, Strs(RecipeTokens(recipes[1..])))
  {
    var token := Token("recipe", recipes[0]);
    next := st.(included := st.included + [recipes[0]]);
    RecipeTokensCons(recipes, []);
    assert Strs(RecipeTokens(recipes)) + [] == Strs(RecipeTokens(recipes));
    assert Strs(RecipeTokens(recipes[1..])) + [] == Strs(RecipeTokens(recipes[1..]));
    RecipeTokenMatches(recipes[0]);
    var items := Strs(RecipeTokens(recipes));
    assert items[1..] == Strs(RecipeTokens(recipes[1..]));
  }

  lemma AppendHead<T>(a: seq<T>, s: seq<T>)
    requires s != []
    ensures a + [s[0]] + s[1..] == a + s
  {
    assert [s[0]] + s[1..] == s;
  }

  /** A role token in the node's run-list hands the name between its brackets to `process_role`. */
  lemma NodeRoleToken(docs: map<string, Document>, fileCachePath: string, st: KitchenState, name: string)
    requires '\n' !in name
    ensures NodeItem(docs, fileCachePath, st, Str(Token("role", name))) == RoleEffect(docs, fileCachePath, st, name)
  {
    MatchBracketedComplete("role", name, false);
    RecipeAndRoleExclusive(Token("role", name));
  }

  /** Two roles listed one after the other, each with a `data` object and a run-list: unless the first
      role's run-list raises, the second role is applied after the first, so on a shared key the later role
      wins; the recipes of either run-list never touch the configuration. */
  lemma {:induction false} LaterRoleWins(docs: map<string, Document>, fileCachePath: string, st: KitchenState,
                                         first: string, second: string,
                                         firstData: map<string, Value>, secondData: map<string, Value>,
                                         firstItems: seq<Value>, secondItems: seq<Value>)
    requires '\n' !in first && '\n' !in second
    requires RolePath(fileCachePath, first) in docs && RolePath(fileCachePath, second) in docs
    requires docs[RolePath(fileCachePath, first)] == Json(Dict(map["data" := Dict(firstData), "run_list" := List(firstItems)]))
    requires docs[RolePath(fileCachePath, second)] == Json(Dict(map["data" := Dict(secondData), "run_list" := List(secondItems)]))
    ensures var r := NodeWalk(docs, fileCachePath, st, [Str(Token("role", first)), Str(Token("role", second))]);
      RoleWalk(st.(config := st.config + firstData), firstItems).error.None? ==>
        r.state.config == st.config + firstData + secondData
  {
    var items := [Str(Token("role", first)), Str(Token("role", second))];
    var afterFirst := RoleWalk(st.(config := st.config + firstData), firstItems);
    assert NodeItem(docs, fileCachePath, st, items[0]) == afterFirst by {
      NodeRoleToken(docs, fileCachePath, st, first);
      RoleWithDataAndRunList(docs, fileCachePath, st, first, firstData, firstItems);
    }
    if afterFirst.error.None? {
      assert NodeWalk(docs, fileCachePath, st, items) == NodeWalk(docs, fileCachePath, afterFirst.state, [items[1]]) by {
        assert items[1..] == [items[1]];
      }
      RoleDataApplied(docs, fileCachePath, afterFirst.state, second, secondData, secondItems);
    }
  }

  /** A node run-list of one role token, for a role file with a `data` object and a run-list, applies that
      `data` to the configuration, whatever the run-list then does. */
  lemma RoleDataApplied(docs: map<string, Document>, fileCachePath: string, st: KitchenState, name: string,
                        data: map<string, Value>, items: seq<Value>)
    requires '\n' !in name && RolePath(fileCachePath, name) in docs
    requires docs[RolePath(fileCachePath, name)] == Json(Dict(map["data" := Dict(data), "run_list" := List(items)]))
    ensures NodeWalk(docs, fileCachePath, st, [Str(Token("role", name))]).state.config == st.config + data
  {
    var item := Str(Token("role", name));
    var after := RoleWalk(st.(config := st.config + data), items);
    assert NodeItem(docs, fileCachePath, st, item) == after by {
      NodeRoleToken(docs, fileCachePath, st, name);
      RoleWithDataAndRunList(docs, fileCachePath, st, name, data, items);
    }
    NodeWalkSingle(docs, fileCachePath, st, item);
  }

  /** How `main` ends: `return -1`, an exception, or falling off the end after `kit.run()`. */
  datatype MainOutcome = Exited(code: int) | Raised(error: Exception) | Finished

  /** How `main` ends, and the state of the Kitchen it created, if it got that far. */
  datatype MainRun = MainRun(outcome: MainOutcome, kitchen: Option<KitchenState>)

  /** `main` given the options of the `kokki` section of the configuration file, the node descriptor's path
      and the JSON files on disk. */
  function MainSpec(options: map<string, string>, descriptorPath: string, docs: map<string, Document>): (r: MainRun)
    ensures r.outcome.Exited? ==> r.outcome.code == -1 && r.kitchen.None?
    ensures r.outcome.Exited? <==>
      "file_cache_path" !in options || "cookbook_path" !in options || descriptorPath !in docs
    ensures r.outcome.Finished? ==> r.kitchen.Some?
    ensures r.outcome.Finished? <==>
      && "file_cache_path" in options && "cookbook_path" in options && descriptorPath in docs
      && docs[descriptorPath].Json?
      && var runList := Lookup(docs[descriptorPath].value, "run_list");
         && runList.Ok? && Iterate(runList.value).Ok?
         && NodeWalk(docs, options["file_cache_path"], KitchenState(map[], []), Iterate(runList.value).value).error.None?
    ensures r.outcome.Finished? ==>
      var items := Iterate(Lookup(docs[descriptorPath].value, "run_list").value).value;
      r.kitchen == Some(NodeWalk(docs, options["file_cache_path"], KitchenState(map[], []), items).state)
  {
    if "file_cache_path" !in options then MainRun(Exited(-1), None)
    else if "cookbook_path" !in options then MainRun(Exited(-1), None)
    else if descriptorPath !in docs then MainRun(Exited(-1), None)
    else match docs[descriptorPath]
      case Unparsable => MainRun(Raised(ValueError(NoJsonObject)), None)
      case Json(descriptor) =>
        var empty := KitchenState(map[], []);
        match Lookup(descriptor, "run_list")
        case Err(e) => MainRun(Raised(e), Some(empty))
        case Ok(runList) =>
          match Iterate(runList)
          case Err(e) => MainRun(Raised(e), Some(empty))
          case Ok(items) =>
            var s := NodeWalk(docs, options["file_cache_path"], empty, items);
            MainRun(if s.error.Some? then Raised(s.error.value) else Finished, Some(s.state))
  }

  /** The `for item in run_list` loop of `main`: each item in turn, stopping at the first exception. */
  method WalkRunList(kit: Kitchen, runItems: seq<Value>, fileCachePath: string, docs: map<string, Document>)
    returns (error: Option<Exception>)
    modifies kit
    ensures Step(kit.State(), error) == NodeWalk(docs, fileCachePath, old(kit.State()), runItems)
    ensures kit.cookbookPaths == old(kit.cookbookPaths) && kit.ran == old(kit.ran)
  {
    ghost var start := kit.State();
    var i := 0;
    assert runItems[..0] == [];
    while i < |runItems|
      invariant 0 <= i <= |runItems|
      invariant NodeWalk(docs, fileCachePath, start, runItems[..i]) == Step(kit.State(), None)
      invariant kit.cookbookPaths == old(kit.cookbookPaths) && kit.ran == old(kit.ran)
    {
      var runItem := runItems[i];
      NodeWalkStep(docs, fileCachePath, start, runItems, i);
      if !runItem.Str? {
        NodeWalkStopsEarly(docs, fileCachePath, start, runItems, i + 1);
        return Some(TypeError(ExpectedString));
      }
      var recipeMatch := RecipeMatch(runItem.s);
      if recipeMatch.Some? {
        kit.IncludeRecipe(recipeMatch.value.group1);
      } else {
        var roleMatch := RoleMatch(runItem.s);
        if roleMatch.Some? {
          error := ProcessRole(kit, roleMatch.value.group1, fileCachePath, docs);
          if error.Some? {
            NodeWalkStopsEarly(docs, fileCachePath, start, runItems, i + 1);
            return;
          }
        }
      }
      i := i + 1;
    }
    assert runItems[..i] == runItems;
    error := None;
  }

  /** `main`: the three checks that return -1 before any Kitchen exists, then the node's run-list, then
      `kit.run()` once the whole run-list has been processed without an exception. */
  method RunSolo(options: map<string, string>, descriptorPath: string, docs: map<string, Document>)
    returns (outcome: MainOutcome, kit: Kitchen?)
    ensures outcome == MainSpec(options, descriptorPath, docs).outcome
    ensures kit == null <==> MainSpec(options, descriptorPath, docs).kitchen.None?
    ensures kit != null ==>
      && fresh(kit) && Some(kit.State()) == MainSpec(options, descriptorPath, docs).kitchen
      && "cookbook_path" in options && kit.cookbookPaths == [options["cookbook_path"]] && kit.ran == outcome.Finished?
  {
    if "file_cache_path" !in options {
      return Exited(-1), null;
    }
    var fileCachePath := options["file_cache_path"];
    if "cookbook_path" !in options {
      return Exited(-1), null;
    }
    var cookbookPath := options["cookbook_path"];
    if descriptorPath !in docs {
      return Exited(-1), null;
    }
    if docs[descriptorPath].Unparsable? {
      return Raised(ValueError(NoJsonObject)), null;
    }
    var descriptor := docs[descriptorPath].value;
    kit := new Kitchen();
    kit.AddCookbookPath(cookbookPath);
    var runList := Lookup(descriptor, "run_list");
    if runList.Err? {
      return Raised(runList.error), kit;
    }
    var items := Iterate(runList.value);
    if items.Err? {
      return Raised(items.error), kit;
    }
    var error := WalkRunList(kit, items.value, fileCachePath, docs);
    if error.Some? {
      return Raised(error.value), kit;
    }
    kit.Run();
    outcome := Finished;
  }
}
