/** Settings trees, deep_merge, and the staged patch of config.py. */
module Config {
  import opened Prelude

  /** A TOML/JSON tree: a dict, or null, a text or any other value (which all merge wholesale). */
  datatype Tree = Null | Text(text: string) | Leaf(value: string) | Dict(entries: Table)
  type Table = map<string, Tree>

  /** deep_merge: the patch wins; dicts merge recursively. */
  function Merge(base: Table, patch: Table): (out: Table)
    ensures out.Keys == base.Keys + patch.Keys
    decreases Dict(patch), 1
  {
    map k | k in base.Keys + patch.Keys :: MergeAt(base, patch, k)
  }

  function MergeAt(base: Table, patch: Table, k: string): Tree
    requires k in base.Keys + patch.Keys
    decreases Dict(patch), 0
  {
    if k !in patch then base[k]
    else if patch[k].Dict? && k in base && base[k].Dict? then
      assert Dict(patch[k].entries) == patch[k];
      Dict(Merge(base[k].entries, patch[k].entries))
    else patch[k]
  }

  // ---- algebra of patches ----

  lemma MergeUnit(a: Table)
    ensures Merge(map[], a) == a && Merge(a, map[]) == a
  {
    assert forall k | k in a :: MergeAt(map[], a, k) == a[k] && MergeAt(a, map[], k) == a[k];
  }

  /** `c` has every key of `a`, at every depth where both hold dicts. */
  predicate Covers(c: Table, a: Table)
    decreases Dict(a), 0
  {
    forall k | k in a :: k in c && (a[k].Dict? && c[k].Dict? ==> CoversTree(c[k], a[k]))
  }

  predicate CoversTree(c: Tree, a: Tree)
    requires c.Dict? && a.Dict?
    decreases a, 1
  {
    Covers(c.entries, a.entries)
  }

  /** A patch hides the base entirely exactly when it covers it. */
  lemma {:induction false} AbsorbedIffCovered(a: Table, c: Table)
    ensures Merge(a, c) == c <==> Covers(c, a)
    decreases Dict(a)
  {
    forall k | k in a && k in c && a[k].Dict? && c[k].Dict?
      ensures MergeAt(a, c, k) == c[k] <==> CoversTree(c[k], a[k])
    {
      assert Dict(a[k].entries) == a[k];
      AbsorbedIffCovered(a[k].entries, c[k].entries);
    }
    if Covers(c, a) {
      forall k | k in c ensures Merge(a, c)[k] == c[k] {}
      assert Merge(a, c).Keys == c.Keys;
    }
    if Merge(a, c) == c {
      forall k | k in a ensures k in c && (a[k].Dict? && c[k].Dict? ==> CoversTree(c[k], a[k])) {
        assert k in Merge(a, c).Keys;
        assert Merge(a, c)[k] == MergeAt(a, c, k);
      }
    }
  }

  /**
   Where the base and the last patch both hold a dict, the patch in between holds a dict too, or
   nothing, or a leaf at a place where the last patch covers the base.
   */
  predicate Compatible(a: Table, b: Table, c: Table)
    decreases Dict(a), 0
  {
    forall k | k in a && k in b && k in c && a[k].Dict? && c[k].Dict? :: CompatibleAt(a[k], b[k], c[k])
  }

  predicate CompatibleAt(a: Tree, b: Tree, c: Tree)
    requires a.Dict? && c.Dict?
    decreases a, 1
  {
    if b.Dict? then Compatible(a.entries, b.entries, c.entries) else Covers(c.entries, a.entries)
  }

  lemma MergeLookup(a: Table, b: Table, k: string)
    requires k in a || k in b
    ensures k in Merge(a, b) && Merge(a, b)[k] == MergeAt(a, b, k)
  {
  }

  /** What stands at a path of keys. */
  function Lookup(t: Table, path: seq<string>): Option<Tree>
    requires path != []
    decreases |path|
  {
    if path[0] !in t then None
    else if |path| == 1 then Some(t[path[0]])
    else if t[path[0]].Dict? then Lookup(t[path[0]].entries, path[1..]) else None
  }

  /** Something other than a dict stands on the way. */
  predicate Blocked(t: Table, path: seq<string>)
    requires path != []
    decreases |path|
  {
    |path| > 1 && path[0] in t && (t[path[0]].Dict? ==> Blocked(t[path[0]].entries, path[1..]))
  }

  /**
   A merge, path by path: where the patch has a value it wins; where it says nothing the base stays, unless a value of
   the patch replaced the dict it was in; and where the patch has a dict there is one.
   */
  lemma {:induction false} MergeByPath(a: Table, p: Table, path: seq<string>)
    requires path != []
    ensures var merged, patched := Lookup(Merge(a, p), path), Lookup(p, path);
            && (patched.Some? && !patched.value.Dict? ==> merged == patched)
            && (patched.Some? && patched.value.Dict? ==> merged.Some? && merged.value.Dict?)
            && (patched.None? ==> merged == if Blocked(p, path) then None else Lookup(a, path))
    decreases |path|
  {
    var k := path[0];
    if k in a || k in p {
      MergeLookup(a, p, k);
      if |path| > 1 && k in p && p[k].Dict? {
        if k in a && a[k].Dict? {
          MergeByPath(a[k].entries, p[k].entries, path[1..]);
        }
      }
    }
  }

  /** One key of the associativity question. */
  lemma {:induction false} AssociativeAt(a: Table, b: Table, c: Table, k: string)
    requires k in a || k in b || k in c
    requires k in a && k in b && k in c && a[k].Dict? && b[k].Dict? && c[k].Dict? ==>
               (Merge(Merge(a[k].entries, b[k].entries), c[k].entries)
                == Merge(a[k].entries, Merge(b[k].entries, c[k].entries))
                <==> Compatible(a[k].entries, b[k].entries, c[k].entries))
    ensures MergeAt(Merge(a, b), c, k) == MergeAt(a, Merge(b, c), k)
            <==> (k in a && k in b && k in c && a[k].Dict? && c[k].Dict? ==> CompatibleAt(a[k], b[k], c[k]))
  {
    if k in a || k in b { MergeLookup(a, b, k); }
    if k in b || k in c { MergeLookup(b, c, k); }
    if k in a && k in c && a[k].Dict? && c[k].Dict? {
      AbsorbedIffCovered(a[k].entries, c[k].entries);
    }
  }

  /** Merging is associative exactly on compatible triples. */
  lemma {:induction false} AssociativeIffCompatible(a: Table, b: Table, c: Table)
    ensures Merge(Merge(a, b), c) == Merge(a, Merge(b, c)) <==> Compatible(a, b, c)
    decreases Dict(a)
  {
    var l, r := Merge(Merge(a, b), c), Merge(a, Merge(b, c));
    assert l.Keys == r.Keys;
    forall k | k in l
      ensures l[k] == r[k] <==> (k in a && k in b && k in c && a[k].Dict? && c[k].Dict? ==> CompatibleAt(a[k], b[k], c[k]))
    {
      if k in a && k in b && k in c && a[k].Dict? && b[k].Dict? && c[k].Dict? {
        assert Dict(a[k].entries) == a[k];
        AssociativeIffCompatible(a[k].entries, b[k].entries, c[k].entries);
      }
      AssociativeAt(a, b, c, k);
      MergeLookup(Merge(a, b), c, k);
      MergeLookup(a, Merge(b, c), k);
    }
  }

  /** A leaf between two dicts really breaks associativity. */
  lemma LeafBetweenDictsBreaks() returns (a: Table, b: Table, c: Table)
    ensures Merge(Merge(a, b), c) != Merge(a, Merge(b, c))
  {
    a := map["s" := Dict(map["x" := Leaf("1")])];
    b := map["s" := Leaf("2")];
    c := map["s" := Dict(map[])];
    AssociativeIffCompatible(a, b, c);
    assert "x" in a["s"].entries && "x" !in c["s"].entries;
    assert !CompatibleAt(a["s"], b["s"], c["s"]);
  }

  lemma {:induction false} CoversSelf(p: Table)
    ensures Covers(p, p)
    decreases Dict(p)
  {
    forall k | k in p && p[k].Dict? ensures CoversTree(p[k], p[k]) {
      assert Dict(p[k].entries) == p[k];
      CoversSelf(p[k].entries);
    }
  }

  lemma {:induction false} MergeIdempotent(a: Table, p: Table)
    ensures Merge(Merge(a, p), p) == Merge(a, p)
    decreases Dict(p)
  {
    var m := Merge(a, p);
    forall k | k in m ensures MergeAt(m, p, k) == m[k] {
      MergeLookup(a, p, k);
      if k in p && p[k].Dict? && m[k].Dict? {
        assert Dict(p[k].entries) == p[k];
        if k in a && a[k].Dict? {
          MergeIdempotent(a[k].entries, p[k].entries);
        } else {
          CoversSelf(p[k].entries);
          AbsorbedIffCovered(p[k].entries, p[k].entries);
        }
      }
    }
  }

  // ---- patches of one shape (what the strict settings schema enforces) ----

  /** Every key of the tree is a key of the shape, and is a dict exactly where the shape has one. */
  predicate Conforms(shape: Table, t: Table)
    decreases Dict(t), 0
  {
    forall k | k in t :: k in shape && ConformsTree(shape[k], t[k])
  }

  predicate ConformsTree(shape: Tree, t: Tree)
    decreases t, 1
  {
    shape.Dict? == t.Dict? && (t.Dict? ==> Conforms(shape.entries, t.entries))
  }

  lemma {:induction false} ConformingCompatible(shape: Table, a: Table, b: Table, c: Table)
    requires Conforms(shape, a) && Conforms(shape, b) && Conforms(shape, c)
    ensures Compatible(a, b, c)
    decreases Dict(a)
  {
    forall k | k in a && k in b && k in c && a[k].Dict? && c[k].Dict? ensures CompatibleAt(a[k], b[k], c[k]) {
      assert ConformsTree(shape[k], a[k]) && ConformsTree(shape[k], b[k]) && ConformsTree(shape[k], c[k]);
      assert Dict(a[k].entries) == a[k];
      ConformingCompatible(shape[k].entries, a[k].entries, b[k].entries, c[k].entries);
    }
  }

  /** A merge that conforms was made of a patch that conforms: the patch has no other keys or kinds. */
  lemma {:induction false} ConformsPatch(shape: Table, a: Table, p: Table)
    requires Conforms(shape, Merge(a, p))
    ensures Conforms(shape, p)
    decreases Dict(p)
  {
    forall k | k in p ensures k in shape && ConformsTree(shape[k], p[k]) {
      MergeLookup(a, p, k);
      assert ConformsTree(shape[k], Merge(a, p)[k]);
      if p[k].Dict? && k in a && a[k].Dict? {
        assert Dict(p[k].entries) == p[k];
        ConformsPatch(shape[k].entries, a[k].entries, p[k].entries);
      }
    }
  }

  // ---- the server's token ----

  const SERVER := "server"
  const HOST := "host"
  const TOKEN := "auth_token"

  predicate HasServer(t: Table) {
    SERVER in t && t[SERVER].Dict?
  }

  function ServerField(t: Table, field: string): Option<Tree> {
    if HasServer(t) && field in t[SERVER].entries then Some(t[SERVER].entries[field]) else None
  }

  function TokenOf(t: Table): Option<Tree> {
    ServerField(t, TOKEN)
  }

  /** No token: none given, null or the empty text. */
  predicate NoToken(t: Table) {
    TokenOf(t) in {None, Some(Null), Some(Text(""))}
  }

  predicate SetsToken(patch: Table) {
    TokenOf(patch).Some?
  }

  /** The settings without the token. */
  function Rest(t: Table): Table {
    if HasServer(t) then t[SERVER := Dict(t[SERVER].entries - {TOKEN})] else t
  }

  function WithToken(t: Table, token: string): Table {
    if HasServer(t) then t[SERVER := Dict(t[SERVER].entries[TOKEN := Text(token)])] else t
  }

  lemma OneKeyBack(x: Table, y: Table, k: string)
    requires x - {k} == y - {k} && (k in x <==> k in y) && (k in x ==> x[k] == y[k])
    ensures x == y
  {
    forall j ensures (j in x <==> j in y) && (j in x && j in y ==> x[j] == y[j]) {
      assert j != k ==> (j in x <==> j in x - {k}) && (j in y <==> j in y - {k});
      assert j != k && j in x && j in y ==> x[j] == (x - {k})[j] && y[j] == (y - {k})[j];
    }
  }

  /** Settings are their token and the rest. */
  lemma RestAndToken(a: Table, b: Table)
    requires Rest(a) == Rest(b) && TokenOf(a) == TokenOf(b)
    ensures a == b
  {
    assert HasServer(Rest(a)) == HasServer(a) && HasServer(Rest(b)) == HasServer(b);
    if HasServer(a) {
      assert Rest(a)[SERVER] == Dict(a[SERVER].entries - {TOKEN}) && Rest(b)[SERVER] == Dict(b[SERVER].entries - {TOKEN});
      OneKeyBack(a[SERVER].entries, b[SERVER].entries, TOKEN);
      assert a == Rest(a)[SERVER := a[SERVER]] && b == Rest(b)[SERVER := b[SERVER]];
    }
  }

  lemma RestElsewhere(t: Table, k: string)
    requires k != SERVER
    ensures k in Rest(t) <==> k in t
    ensures k in t ==> Rest(t)[k] == t[k]
  {
  }

  lemma RestOfMergeAt(a: Table, b: Table, p: Table, k: string)
    requires Rest(a) == Rest(b) && k != SERVER
    ensures k in Merge(a, p) <==> k in Merge(b, p)
    ensures k in Merge(a, p) ==> Merge(a, p)[k] == Merge(b, p)[k]
  {
    RestElsewhere(a, k);
    RestElsewhere(b, k);
    if k in a || k in p {
      MergeLookup(a, p, k);
      MergeLookup(b, p, k);
    }
  }

  /** Settings that differ in the token only still do after the same patch. */
  lemma RestOfMerge(a: Table, b: Table, p: Table)
    requires Rest(a) == Rest(b)
    ensures Rest(Merge(a, p)) == Rest(Merge(b, p))
  {
    var x, y := Rest(Merge(a, p)), Rest(Merge(b, p));
    forall k ensures (k in x <==> k in y) && (k in x && k in y ==> x[k] == y[k]) {
      if k == SERVER {
        RestOfServer(a, b, p);
      } else {
        RestOfMergeAt(a, b, p, k);
        RestElsewhere(Merge(a, p), k);
        RestElsewhere(Merge(b, p), k);
      }
    }
  }

  lemma RestOfServer(a: Table, b: Table, p: Table)
    requires Rest(a) == Rest(b)
    ensures SERVER in Rest(Merge(a, p)) <==> SERVER in Rest(Merge(b, p))
    ensures SERVER in Rest(Merge(a, p)) && SERVER in Rest(Merge(b, p)) ==> Rest(Merge(a, p))[SERVER] == Rest(Merge(b, p))[SERVER]
  {
    assert (SERVER in a <==> SERVER in Rest(a)) && (SERVER in b <==> SERVER in Rest(b));
    if SERVER in a || SERVER in p {
      MergeLookup(a, p, SERVER);
      MergeLookup(b, p, SERVER);
      assert HasServer(a) == HasServer(Rest(a)) == HasServer(b);
      if HasServer(a) && HasServer(p) {
        var x, y, q := a[SERVER].entries, b[SERVER].entries, p[SERVER].entries;
        assert x - {TOKEN} == Rest(a)[SERVER].entries == Rest(b)[SERVER].entries == y - {TOKEN};
        MergeWithout(x, y, q, TOKEN);
      }
    }
  }

  lemma MergeWithout(x: Table, y: Table, q: Table, t: string)
    requires x - {t} == y - {t}
    ensures Merge(x, q) - {t} == Merge(y, q) - {t}
  {
    forall k | k != t
      ensures k in Merge(x, q) <==> k in Merge(y, q)
      ensures k in Merge(x, q) && k in Merge(y, q) ==> Merge(x, q)[k] == Merge(y, q)[k]
    {
      assert (k in x <==> k in x - {t}) && (k in y <==> k in y - {t});
      assert k in x && k in y ==> x[k] == (x - {t})[k] && y[k] == (y - {t})[k];
      if k in x || k in q {
        MergeLookup(x, q, k);
        MergeLookup(y, q, k);
      }
    }
  }

  /** What the settings schema takes as a token: null or a text. */
  predicate PlainToken(t: Table) {
    var v := TokenOf(t);
    v.None? || v.value.Null? || v.value.Text?
  }

  /** A patch that sets the token sets it whatever was there; one that does not leaves it. */
  lemma TokenOfMerge(a: Table, p: Table)
    requires PlainToken(a)
    ensures SetsToken(p) ==> TokenOf(Merge(a, p)) == TokenOf(p)
    ensures !SetsToken(p) && HasServer(a) && HasServer(Merge(a, p)) ==> TokenOf(Merge(a, p)) == TokenOf(a)
    ensures !SetsToken(p) && !HasServer(a) ==> TokenOf(Merge(a, p)) == None
  {
    if SERVER in a || SERVER in p {
      MergeLookup(a, p, SERVER);
      if HasServer(a) && HasServer(p) && (TOKEN in a[SERVER].entries || TOKEN in p[SERVER].entries) {
        MergeLookup(a[SERVER].entries, p[SERVER].entries, TOKEN);
      }
    }
  }

  // ---- the staged patch ----

  /** What the settings schema accepts, and which hosts are loopback. */
  datatype Rules = Rules(valid: Table -> bool, loopback: string -> bool)

  /** The schema takes any text, or null, as a token. */
  ghost predicate TokenIsFree(rules: Rules) {
    && (forall t | rules.valid(t) :: PlainToken(t))
    && (forall a, b | rules.valid(a) && Rest(a) == Rest(b) && PlainToken(b) :: rules.valid(b))
  }

  datatype Store = Store(settings: Table, staged: Option<Table>)

  function StagedOrEmpty(staged: Option<Table>): Table {
    if staged.Some? then staged.value else map[]
  }

  /** staged_settings: the settings with the staged patch applied. */
  function Preview(st: Store): Table {
    Merge(st.settings, StagedOrEmpty(st.staged))
  }

  /** A patch that is not answered with a 400: not empty, and valid on top of what is staged. */
  predicate Accepts(rules: Rules, st: Store, patch: Table) {
    patch != map[] && rules.valid(Merge(st.settings, Merge(StagedOrEmpty(st.staged), patch)))
  }

  /** stage: a rejected (or empty) patch changes nothing. */
  function Stage(rules: Rules, st: Store, patch: Table): Store {
    if Accepts(rules, st, patch) then st.(staged := Some(Merge(StagedOrEmpty(st.staged), patch))) else st
  }

  predicate Exposed(rules: Rules, t: Table) {
    var host := ServerField(t, HOST);
    host.Some? && host.value.Text? && !rules.loopback(host.value.text)
  }

  predicate NeedsToken(rules: Rules, t: Table) {
    Exposed(rules, t) && NoToken(t)
  }

  /** ensure_server_auth_token, when `token` is the text that would be drawn. */
  function Mint(rules: Rules, t: Table, token: string): Table {
    if NeedsToken(rules, t) then WithToken(t, token) else t
  }

  /** apply: merge the staged patch into the settings, clear the stage, and mint a token if one is needed now. */
  function Apply(rules: Rules, st: Store, token: string): Store {
    if st.staged.None? then st else Store(Mint(rules, Preview(st), token), None)
  }

  function StageAll(rules: Rules, st: Store, patches: seq<Table>): Store
    decreases |patches|
  {
    if patches == [] then st else Stage(rules, StageAll(rules, st, patches[..|patches| - 1]), patches[|patches| - 1])
  }

  /** Applying at once and again after each patch; tokens[i] would be drawn by the apply after i patches. */
  function ApplyEach(rules: Rules, st: Store, patches: seq<Table>, tokens: seq<string>): Store
    requires |tokens| > |patches|
    decreases |patches|
  {
    if patches == [] then Apply(rules, st, tokens[0])
    else
      var n := |patches| - 1;
      Apply(rules, Stage(rules, ApplyEach(rules, st, patches[..n], tokens), patches[n]), tokens[n + 1])
  }

  /** Whatever is staged keeps the settings valid, so apply never fails on it. */
  predicate StagedIsValid(rules: Rules, st: Store) {
    rules.valid(st.settings) && rules.valid(Preview(st))
  }

  lemma MintKeepsRest(rules: Rules, t: Table, token: string)
    ensures Rest(Mint(rules, t, token)) == Rest(t)
    ensures TokenOf(Mint(rules, t, token)) == if NeedsToken(rules, t) then Some(Text(token)) else TokenOf(t)
  {
    if NeedsToken(rules, t) {
      var x := t[SERVER].entries;
      assert x[TOKEN := Text(token)] - {TOKEN} == x - {TOKEN};
    }
  }

  lemma NothingStaged(settings: Table)
    ensures Preview(Store(settings, None)) == settings
  {
    MergeUnit(settings);
  }

  lemma StagedStaysValid(rules: Rules, st: Store, patch: Table, token: string)
    requires StagedIsValid(rules, st) && TokenIsFree(rules)
    ensures StagedIsValid(rules, Stage(rules, st, patch)) && StagedIsValid(rules, Apply(rules, st, token))
  {
    if st.staged.Some? {
      var t := Mint(rules, Preview(st), token);
      MintKeepsRest(rules, Preview(st), token);
      assert rules.valid(t);
      NothingStaged(t);
    }
  }

  /** After a commit a server that is not on loopback has a token: the one it had, or a new one. */
  lemma CommitProtects(rules: Rules, st: Store, token: string)
    requires st.staged.Some? && token != ""
    ensures var t := Apply(rules, st, token).settings;
            && Rest(t) == Rest(Preview(st))
            && (Exposed(rules, t) <==> Exposed(rules, Preview(st)))
            && (Exposed(rules, t) ==> !NoToken(t))
            && (!NoToken(Preview(st)) ==> TokenOf(t) == TokenOf(Preview(st)))
  {
    MintKeepsRest(rules, Preview(st), token);
    HostInRest(Preview(st));
    HostInRest(Mint(rules, Preview(st), token));
  }

  lemma HostInRest(t: Table)
    ensures ServerField(Rest(t), HOST) == ServerField(t, HOST)
  {
  }

  // ---- staging everything against applying each time ----

  lemma NeitherConforms(shape: Table, settings: Table, staged: Table, p: Table)
    requires !Conforms(shape, p)
    ensures !Conforms(shape, Merge(settings, Merge(staged, p))) && !Conforms(shape, Merge(Merge(settings, staged), p))
  {
    if Conforms(shape, Merge(settings, Merge(staged, p))) {
      ConformsPatch(shape, settings, Merge(staged, p));
      ConformsPatch(shape, staged, p);
    }
    if Conforms(shape, Merge(Merge(settings, staged), p)) {
      ConformsPatch(shape, Merge(settings, staged), p);
    }
  }

  /** The premises: valid settings all have one shape, and the schema takes any token. */
  ghost predicate StrictRules(rules: Rules, shape: Table) {
    (forall t | rules.valid(t) :: Conforms(shape, t)) && TokenIsFree(rules)
  }

  /** A patch is accepted on top of the stage exactly when the preview with the patch is valid, which is then the new preview. */
  lemma StagePreviews(rules: Rules, shape: Table, st: Store, p: Table)
    requires StrictRules(rules, shape) && StagedIsValid(rules, st)
    ensures Accepts(rules, st, p) <==> p != map[] && rules.valid(Merge(Preview(st), p))
    ensures Preview(Stage(rules, st, p)) == if Accepts(rules, st, p) then Merge(Preview(st), p) else Preview(st)
  {
    var settings, staged := st.settings, StagedOrEmpty(st.staged);
    ConformsPatch(shape, settings, staged);
    if Conforms(shape, p) {
      ConformingCompatible(shape, settings, staged, p);
      AssociativeIffCompatible(settings, staged, p);
    } else {
      NeitherConforms(shape, settings, staged, p);
    }
  }

  /** Settings that differ in nothing but the token accept the same patches. */
  lemma SameVerdict(rules: Rules, shape: Table, a: Table, b: Table, p: Table)
    requires StrictRules(rules, shape) && rules.valid(a) && rules.valid(b) && Rest(a) == Rest(b)
    ensures rules.valid(Merge(a, p)) ==> rules.valid(Merge(b, p))
  {
    RestOfMerge(a, b, p);
    if rules.valid(Merge(a, p)) {
      PatchedToken(rules, shape, a, p);
      TokenOfMerge(b, p);
      assert PlainToken(Merge(a, p)) && PlainToken(b);
      assert PlainToken(Merge(b, p)) by {
        if !SetsToken(p) && HasServer(b) && !HasServer(Merge(b, p)) {
          assert TokenOf(Merge(b, p)) == None;
        }
      }
    }
  }

  /** The token after an accepted patch. */
  lemma PatchedToken(rules: Rules, shape: Table, a: Table, p: Table)
    requires StrictRules(rules, shape) && rules.valid(a) && rules.valid(Merge(a, p))
    ensures TokenOf(Merge(a, p)) == if SetsToken(p) then TokenOf(p) else TokenOf(a)
  {
    TokenOfMerge(a, p);
    if HasServer(a) {
      assert SERVER in Merge(a, p) && ConformsTree(shape[SERVER], a[SERVER]) && ConformsTree(shape[SERVER], Merge(a, p)[SERVER]);
    }
  }

  /** Both orders are at the same settings but for the token, and the applying one has nothing staged. */
  predicate Alike(rules: Rules, once: Store, each: Store) {
    && StagedIsValid(rules, once) && rules.valid(each.settings)
    && each.staged.None? && Rest(Preview(once)) == Rest(each.settings)
  }

  lemma AlikeAccepts(rules: Rules, shape: Table, once: Store, each: Store, p: Table)
    requires StrictRules(rules, shape) && Alike(rules, once, each)
    ensures Accepts(rules, once, p) <==> Accepts(rules, each, p)
    ensures StagedIsValid(rules, each) && Preview(each) == each.settings
  {
    NothingStaged(each.settings);
    assert each == Store(each.settings, None);
    StagePreviews(rules, shape, once, p);
    StagePreviews(rules, shape, each, p);
    SameVerdict(rules, shape, Preview(once), each.settings, p);
    SameVerdict(rules, shape, each.settings, Preview(once), p);
  }

  /** One more patch keeps both orders alike; the applying one may have minted a token. */
  lemma AlikeKept(rules: Rules, shape: Table, once: Store, each: Store, p: Table, token: string)
    requires StrictRules(rules, shape) && Alike(rules, once, each)
    ensures var once', each' := Stage(rules, once, p), Apply(rules, Stage(rules, each, p), token);
            && Alike(rules, once', each')
            && (!Accepts(rules, once, p) ==> once' == once && each' == each)
            && (Accepts(rules, once, p) ==>
                  each'.settings == Mint(rules, Merge(each.settings, p), token)
                  && Preview(once') == Merge(Preview(once), p) && rules.valid(Merge(each.settings, p)))
  {
    AlikeAccepts(rules, shape, once, each, p);
    StagePreviews(rules, shape, once, p);
    StagePreviews(rules, shape, each, p);
    StagedStaysValid(rules, once, p, token);
    StagedStaysValid(rules, each, p, token);
    if Accepts(rules, once, p) {
      StagedStaysValid(rules, Stage(rules, each, p), p, token);
      RestOfMerge(Preview(once), each.settings, p);
      MintKeepsRest(rules, Merge(each.settings, p), token);
    }
  }

  lemma {:induction false} OrdersStayAlike(rules: Rules, shape: Table, st: Store, patches: seq<Table>, tokens: seq<string>)
    requires StrictRules(rules, shape) && StagedIsValid(rules, st) && |tokens| > |patches|
    ensures Alike(rules, StageAll(rules, st, patches), ApplyEach(rules, st, patches, tokens))
    decreases |patches|
  {
    if patches == [] {
      MintKeepsRest(rules, Preview(st), tokens[0]);
      StagedStaysValid(rules, st, map[], tokens[0]);
      if st.staged.None? {
        NothingStaged(st.settings);
      }
    } else {
      var n := |patches| - 1;
      OrdersStayAlike(rules, shape, st, patches[..n], tokens);
      AlikeKept(rules, shape, StageAll(rules, st, patches[..n]), ApplyEach(rules, st, patches[..n], tokens),
                patches[n], tokens[n + 1]);
    }
  }

  /** The i-th patch is accepted when those before it are staged. */
  predicate Accepted(rules: Rules, st: Store, patches: seq<Table>, i: nat)
    requires i < |patches|
  {
    Accepts(rules, StageAll(rules, st, patches[..i]), patches[i])
  }

  /**
   When valid settings all have one shape and any token is valid, then for any sequence of patches, well-formed or not,
   staging them all and applying once, and applying after each one, accept the same patches and leave the same settings
   up to the server's token.
   */
  lemma ApplyOnceOrEach(rules: Rules, shape: Table, st: Store, patches: seq<Table>, token: string, tokens: seq<string>)
    requires StrictRules(rules, shape) && StagedIsValid(rules, st) && |tokens| > |patches|
    ensures forall i: nat | i < |patches| ::
              Accepted(rules, st, patches, i) <==> Accepts(rules, ApplyEach(rules, st, patches[..i], tokens), patches[i])
    ensures var once, each := Apply(rules, StageAll(rules, st, patches), token), ApplyEach(rules, st, patches, tokens);
            once.staged == each.staged == None && Rest(once.settings) == Rest(each.settings)
  {
    forall i: nat | i < |patches|
      ensures Accepted(rules, st, patches, i) <==> Accepts(rules, ApplyEach(rules, st, patches[..i], tokens), patches[i])
    {
      OrdersStayAlike(rules, shape, st, patches[..i], tokens);
      AlikeAccepts(rules, shape, StageAll(rules, st, patches[..i]), ApplyEach(rules, st, patches[..i], tokens), patches[i]);
    }
    OrdersStayAlike(rules, shape, st, patches, tokens);
    var all := StageAll(rules, st, patches);
    MintKeepsRest(rules, Preview(all), token);
    if all.staged.None? {
      NothingStaged(all.settings);
    }
  }

  // ---- when the two orders leave different tokens ----

  function NewToken(rules: Rules, t: Table, token: string): Option<string> {
    if NeedsToken(rules, t) then Some(token) else None
  }

  /** The minted token that stands in the settings when each patch was applied, if one does. */
  function Minted(rules: Rules, st: Store, patches: seq<Table>, tokens: seq<string>): Option<string>
    requires |tokens| > |patches|
    decreases |patches|
  {
    if patches == [] then if st.staged.Some? then NewToken(rules, Preview(st), tokens[0]) else None
    else
      var n := |patches| - 1;
      var once, before := StageAll(rules, st, patches[..n]), Minted(rules, st, patches[..n], tokens);
      if !Accepts(rules, once, patches[n]) || (before.Some? && !SetsToken(patches[n])) then before
      else NewToken(rules, Preview(Stage(rules, once, patches[n])), tokens[n + 1])
  }

  /** Settings `each` have the minted token, if one stands, where `t` has none; else they have the token of `t`. */
  predicate Stands(minted: Option<string>, t: Table, each: Table) {
    if minted.Some? then minted.value != "" && TokenOf(each) == Some(Text(minted.value)) && NoToken(t)
    else TokenOf(each) == TokenOf(t)
  }

  /** The token after one more accepted patch. */
  lemma TokenStep(rules: Rules, shape: Table, t: Table, each: Table, p: Table, token: string, before: Option<string>)
    requires StrictRules(rules, shape) && token != ""
    requires rules.valid(t) && rules.valid(each) && Rest(t) == Rest(each)
    requires rules.valid(Merge(t, p)) && rules.valid(Merge(each, p))
    requires Stands(before, t, each)
    ensures Stands(if before.Some? && !SetsToken(p) then before else NewToken(rules, Merge(t, p), token),
                   Merge(t, p), Mint(rules, Merge(each, p), token))
  {
    PatchedToken(rules, shape, t, p);
    PatchedToken(rules, shape, each, p);
    RestOfMerge(t, each, p);
    HostInRest(Merge(t, p));
    HostInRest(Merge(each, p));
    MintKeepsRest(rules, Merge(each, p), token);
  }

  lemma StoreStep(rules: Rules, shape: Table, once: Store, each: Store, p: Table, token: string, before: Option<string>)
    requires StrictRules(rules, shape) && token != "" && Alike(rules, once, each)
    requires Stands(before, Preview(once), each.settings)
    ensures var once', each' := Stage(rules, once, p), Apply(rules, Stage(rules, each, p), token);
            Stands(if !Accepts(rules, once, p) || (before.Some? && !SetsToken(p)) then before
                   else NewToken(rules, Preview(once'), token),
                   Preview(once'), each'.settings)
  {
    AlikeKept(rules, shape, once, each, p, token);
    if Accepts(rules, once, p) {
      StagePreviews(rules, shape, once, p);
      TokenStep(rules, shape, Preview(once), each.settings, p, token, before);
    }
  }

  /** What the applying order has as its token: the minted one that stands, else the one the patches set. */
  lemma {:induction false} TokenOfEach(rules: Rules, shape: Table, st: Store, patches: seq<Table>, tokens: seq<string>)
    requires StrictRules(rules, shape) && StagedIsValid(rules, st) && |tokens| > |patches| && "" !in tokens
    ensures Stands(Minted(rules, st, patches, tokens), Preview(StageAll(rules, st, patches)),
                   ApplyEach(rules, st, patches, tokens).settings)
    decreases |patches|
  {
    if patches == [] {
      MintKeepsRest(rules, Preview(st), tokens[0]);
      if st.staged.None? {
        NothingStaged(st.settings);
      }
    } else {
      var n := |patches| - 1;
      TokenOfEach(rules, shape, st, patches[..n], tokens);
      OrdersStayAlike(rules, shape, st, patches[..n], tokens);
      StoreStep(rules, shape, StageAll(rules, st, patches[..n]), ApplyEach(rules, st, patches[..n], tokens),
                patches[n], tokens[n + 1], Minted(rules, st, patches[..n], tokens));
    }
  }

  /** A token stands only after a commit; and when the last preview needs one, one stands. */
  lemma {:induction false} MintedBounds(rules: Rules, st: Store, patches: seq<Table>, tokens: seq<string>)
    requires |tokens| > |patches|
    ensures var minted, all := Minted(rules, st, patches, tokens), StageAll(rules, st, patches);
            && (minted.Some? ==> all.staged.Some?)
            && (all.staged.Some? && NeedsToken(rules, Preview(all)) ==> minted.Some?)
    decreases |patches|
  {
    if patches != [] {
      MintedBounds(rules, st, patches[..|patches| - 1], tokens);
    }
  }

  /** After i patches there is something to commit, and committing it would mint a token. */
  predicate MintsAfter(rules: Rules, st: Store, patches: seq<Table>, i: nat)
    requires i <= |patches|
  {
    && (if i == 0 then st.staged.Some? else Accepted(rules, st, patches, i - 1))
    && NeedsToken(rules, Preview(StageAll(rules, st, patches[..i])))
  }

  /** The j-th patch is accepted and sets the token. */
  predicate SetsAt(rules: Rules, st: Store, patches: seq<Table>, j: nat)
    requires j < |patches|
  {
    Accepted(rules, st, patches, j) && SetsToken(patches[j])
  }

  function MintFlags(rules: Rules, st: Store, patches: seq<Table>): (flags: seq<bool>)
    ensures |flags| == |patches| + 1
    ensures forall i | 0 <= i < |flags| :: flags[i] == MintsAfter(rules, st, patches, i)
  {
    seq(|patches| + 1, i requires 0 <= i <= |patches| => MintsAfter(rules, st, patches, i))
  }

  function SetFlags(rules: Rules, st: Store, patches: seq<Table>): (flags: seq<bool>)
    ensures |flags| == |patches|
    ensures forall j | 0 <= j < |flags| :: flags[j] == SetsAt(rules, st, patches, j)
  {
    seq(|patches|, j requires 0 <= j < |patches| => SetsAt(rules, st, patches, j))
  }

  /** Some token is minted and none is set from there on. */
  predicate StillStands(mints: seq<bool>, sets: seq<bool>)
    requires |mints| == |sets| + 1
  {
    exists i :: 0 <= i < |mints| && mints[i] && forall j :: i <= j < |sets| ==> !sets[j]
  }

  lemma StandsAfterOneMore(mints: seq<bool>, sets: seq<bool>, mint: bool, replaced: bool)
    requires |mints| == |sets| + 1
    ensures StillStands(mints + [mint], sets + [replaced]) <==> mint || (StillStands(mints, sets) && !replaced)
  {
    var m, s := mints + [mint], sets + [replaced];
    if mint {
      assert m[|mints|];
    }
    if StillStands(mints, sets) && !replaced {
      var i :| 0 <= i < |mints| && mints[i] && forall j :: i <= j < |sets| ==> !sets[j];
      assert m[i];
    }
    if StillStands(m, s) && !mint {
      var i :| 0 <= i < |m| && m[i] && forall j :: i <= j < |s| ==> !s[j];
      assert i < |mints| && !s[|sets|] && mints[i];
      assert forall j :: i <= j < |sets| ==> sets[j] == s[j];
    }
  }

  /**
   Some prefix of the patches would have minted a token if applied, and no accepted patch set the token since. Said of
   the patches and the previews that staging them shows.
   */
  predicate MintedOnTheWay(rules: Rules, st: Store, patches: seq<Table>) {
    StillStands(MintFlags(rules, st, patches), SetFlags(rules, st, patches))
  }

  lemma AcceptedInPrefix(rules: Rules, st: Store, patches: seq<Table>, n: nat, j: nat)
    requires j < n <= |patches|
    ensures Accepted(rules, st, patches[..n], j) == Accepted(rules, st, patches, j)
    ensures SetsAt(rules, st, patches[..n], j) == SetsAt(rules, st, patches, j)
  {
    assert patches[..n][..j] == patches[..j];
  }

  lemma MintsInPrefix(rules: Rules, st: Store, patches: seq<Table>, n: nat, i: nat)
    requires i <= n <= |patches|
    ensures MintsAfter(rules, st, patches[..n], i) == MintsAfter(rules, st, patches, i)
  {
    assert patches[..n][..i] == patches[..i];
    if i > 0 {
      AcceptedInPrefix(rules, st, patches, n, i - 1);
    }
  }

  lemma MintFlagsOf(rules: Rules, st: Store, patches: seq<Table>, n: nat)
    requires |patches| == n + 1
    ensures MintFlags(rules, st, patches) == MintFlags(rules, st, patches[..n]) + [MintsAfter(rules, st, patches, n + 1)]
  {
    forall i: nat | i <= n ensures MintFlags(rules, st, patches)[i] == MintFlags(rules, st, patches[..n])[i] {
      MintsInPrefix(rules, st, patches, n, i);
    }
  }

  lemma SetFlagsOf(rules: Rules, st: Store, patches: seq<Table>, n: nat)
    requires |patches| == n + 1
    ensures SetFlags(rules, st, patches) == SetFlags(rules, st, patches[..n]) + [SetsAt(rules, st, patches, n)]
  {
    forall j: nat | j < n ensures SetFlags(rules, st, patches)[j] == SetFlags(rules, st, patches[..n])[j] {
      AcceptedInPrefix(rules, st, patches, n, j);
    }
  }

  /** One more patch: a token stands if it did and is not set now, or if one is minted now. */
  lemma OnTheWayStep(rules: Rules, st: Store, patches: seq<Table>, n: nat)
    requires |patches| == n + 1
    ensures MintedOnTheWay(rules, st, patches)
       <==> MintsAfter(rules, st, patches, n + 1)
            || (MintedOnTheWay(rules, st, patches[..n]) && !SetsAt(rules, st, patches, n))
  {
    MintFlagsOf(rules, st, patches, n);
    SetFlagsOf(rules, st, patches, n);
    StandsAfterOneMore(MintFlags(rules, st, patches[..n]), SetFlags(rules, st, patches[..n]),
                       MintsAfter(rules, st, patches, n + 1), SetsAt(rules, st, patches, n));
  }

  lemma {:induction false} MintedIff(rules: Rules, st: Store, patches: seq<Table>, tokens: seq<string>)
    requires |tokens| > |patches|
    ensures Minted(rules, st, patches, tokens).Some? <==> MintedOnTheWay(rules, st, patches)
    decreases |patches|
  {
    assert patches[..|patches|] == patches;
    if patches == [] {
      assert MintedOnTheWay(rules, st, patches) <==> MintFlags(rules, st, patches)[0];
    } else {
      MintedIff(rules, st, patches[..|patches| - 1], tokens);
      OnTheWayStep(rules, st, patches, |patches| - 1);
    }
  }

  /**
   Exactly when the order matters. Tokens are drawn at random; whatever is drawn, applying after each patch leaves a token
   that applying once does not, if and only if a token was minted on the way and the final host is loopback (so that
   nothing is minted at the end); the settings are equal if and only if no token was minted on the way, or the one apply
   mints one too and happens to draw the same text. Applying once never leaves a token that applying each does not.
   */
  lemma TokensDifferIff(rules: Rules, shape: Table, st: Store, patches: seq<Table>, token: string, tokens: seq<string>)
    requires StrictRules(rules, shape) && StagedIsValid(rules, st)
    requires |tokens| > |patches| && "" !in tokens && token != ""
    ensures var once, each := Apply(rules, StageAll(rules, st, patches), token), ApplyEach(rules, st, patches, tokens);
            var onTheWay, open := MintedOnTheWay(rules, st, patches), Exposed(rules, Preview(StageAll(rules, st, patches)));
            && (NoToken(once.settings) && !NoToken(each.settings) <==> onTheWay && !open)
            && (NoToken(each.settings) ==> NoToken(once.settings))
            && (once == each <==> (onTheWay ==> open && Minted(rules, st, patches, tokens) == Some(token)))
  {
    ApplyOnceOrEach(rules, shape, st, patches, token, tokens);
    TokenOfEach(rules, shape, st, patches, tokens);
    MintedIff(rules, st, patches, tokens);
    MintedBounds(rules, st, patches, tokens);
    var all := StageAll(rules, st, patches);
    var once, each := Apply(rules, all, token), ApplyEach(rules, st, patches, tokens);
    MintKeepsRest(rules, Preview(all), token);
    if all.staged.None? {
      NothingStaged(all.settings);
    }
    if TokenOf(once.settings) == TokenOf(each.settings) {
      RestAndToken(once.settings, each.settings);
    }
  }

  function HostPatch(host: string): Table {
    map[SERVER := Dict(map[HOST := Text(host)])]
  }

  lemma HostOfMerge(t: Table, host: string)
    requires PlainToken(t)
    ensures ServerField(Merge(t, HostPatch(host)), HOST) == Some(Text(host))
    ensures TokenOf(Merge(t, HostPatch(host))) == TokenOf(t)
  {
    MergeLookup(t, HostPatch(host), SERVER);
    TokenOfMerge(t, HostPatch(host));
    if HasServer(t) {
      MergeLookup(t[SERVER].entries, HostPatch(host)[SERVER].entries, HOST);
    }
  }

  lemma TwoStaged(rules: Rules, shape: Table, st: Store, p: Table, q: Table)
    requires StrictRules(rules, shape) && StagedIsValid(rules, st)
    requires p != map[] && rules.valid(Merge(Preview(st), p)) && q != map[] && rules.valid(Merge(Merge(Preview(st), p), q))
    ensures Accepted(rules, st, [p, q], 0) && Accepted(rules, st, [p, q], 1)
    ensures Preview(StageAll(rules, st, [p, q][..1])) == Merge(Preview(st), p)
    ensures Preview(StageAll(rules, st, [p, q])) == Merge(Merge(Preview(st), p), q)
  {
    assert [p, q][..1] == [p] && [p, q][..0] == [] && [p][..0] == [];
    StagePreviews(rules, shape, st, p);
    StagedStaysValid(rules, st, p, "");
    StagePreviews(rules, shape, Stage(rules, st, p), q);
  }

  lemma MintedByFirst(rules: Rules, st: Store, patches: seq<Table>)
    requires |patches| == 2 && Accepted(rules, st, patches, 0) && !SetsToken(patches[1])
    requires NeedsToken(rules, Preview(StageAll(rules, st, patches[..1])))
    ensures MintedOnTheWay(rules, st, patches)
  {
    assert MintFlags(rules, st, patches)[1] && !SetFlags(rules, st, patches)[1];
  }

  lemma OpenedNeedsToken(rules: Rules, t: Table, host: string)
    requires PlainToken(t) && NoToken(t) && !rules.loopback(host)
    ensures NeedsToken(rules, Merge(t, HostPatch(host)))
  {
    HostOfMerge(t, host);
  }

  lemma ClosedIsNotExposed(rules: Rules, t: Table, host: string)
    requires PlainToken(t) && rules.loopback(host)
    ensures !Exposed(rules, Merge(t, HostPatch(host)))
  {
    HostOfMerge(t, host);
  }

  lemma HostPatchIs(host: string)
    ensures HostPatch(host) != map[] && !SetsToken(HostPatch(host))
  {
    assert SERVER in HostPatch(host);
  }

  lemma HostsOnTheWay(rules: Rules, shape: Table, st: Store, away: string, home: string)
    requires StrictRules(rules, shape) && StagedIsValid(rules, st) && NoToken(Preview(st))
    requires !rules.loopback(away) && rules.loopback(home)
    requires rules.valid(Merge(Preview(st), HostPatch(away)))
    requires rules.valid(Merge(Merge(Preview(st), HostPatch(away)), HostPatch(home)))
    ensures var patches := [HostPatch(away), HostPatch(home)];
            MintedOnTheWay(rules, st, patches) && !Exposed(rules, Preview(StageAll(rules, st, patches)))
  {
    var p, q := HostPatch(away), HostPatch(home);
    HostPatchIs(away);
    HostPatchIs(home);
    TwoStaged(rules, shape, st, p, q);
    OpenedNeedsToken(rules, Preview(st), away);
    ClosedIsNotExposed(rules, Merge(Preview(st), p), home);
    MintedByFirst(rules, st, [p, q]);
  }

  /** Open the server to other hosts and close it again: applied one after the other this leaves a token, together none. */
  lemma OpenThenClose(rules: Rules, shape: Table, settings: Table, away: string, home: string, token: string, tokens: seq<string>)
    requires StrictRules(rules, shape) && rules.valid(settings) && NoToken(settings)
    requires !rules.loopback(away) && rules.loopback(home)
    requires rules.valid(Merge(settings, HostPatch(away)))
    requires rules.valid(Merge(Merge(settings, HostPatch(away)), HostPatch(home)))
    requires |tokens| == 3 && "" !in tokens && token != ""
    ensures var st, patches := Store(settings, None), [HostPatch(away), HostPatch(home)];
            && NoToken(Apply(rules, StageAll(rules, st, patches), token).settings)
            && !NoToken(ApplyEach(rules, st, patches, tokens).settings)
  {
    NothingStaged(settings);
    HostsOnTheWay(rules, shape, Store(settings, None), away, home);
    TokensDifferIff(rules, shape, Store(settings, None), [HostPatch(away), HostPatch(home)], token, tokens);
  }

  /** A schema of nothing but the server's host and token. */
  predicate ServerOnly(t: Table) {
    && t.Keys == {SERVER} && t[SERVER].Dict?
    && HOST in t[SERVER].entries && t[SERVER].entries[HOST].Text? && t[SERVER].entries.Keys <= {HOST, TOKEN}
    && PlainToken(t)
  }

  const SERVER_RULES := Rules(t => ServerOnly(t), host => host == "127.0.0.1")
  const SERVER_SHAPE: Table := map[SERVER := Dict(map[HOST := Null, TOKEN := Null])]

  function WithoutToken(host: string): Table {
    map[SERVER := Dict(map[HOST := Text(host), TOKEN := Null])]
  }

  lemma RestKeys(t: Table)
    ensures Rest(t).Keys == t.Keys && HasServer(Rest(t)) == HasServer(t)
    ensures HasServer(t) ==> t[SERVER].entries.Keys <= Rest(t)[SERVER].entries.Keys + {TOKEN}
  {
  }

  lemma ServerOnlyConforms(t: Table)
    requires ServerOnly(t)
    ensures Conforms(SERVER_SHAPE, t)
  {
    var shape, entries := SERVER_SHAPE[SERVER].entries, t[SERVER].entries;
    assert forall k | k in entries :: k in shape && ConformsTree(shape[k], entries[k]);
    assert Conforms(shape, entries);
    assert ConformsTree(SERVER_SHAPE[SERVER], t[SERVER]);
  }

  lemma ServerRulesAreStrict()
    ensures StrictRules(SERVER_RULES, SERVER_SHAPE)
  {
    forall t | SERVER_RULES.valid(t) ensures Conforms(SERVER_SHAPE, t) {
      ServerOnlyConforms(t);
    }
    forall a, b | SERVER_RULES.valid(a) && Rest(a) == Rest(b) && PlainToken(b) ensures SERVER_RULES.valid(b) {
      RestKeys(a);
      RestKeys(b);
      HostInRest(a);
      HostInRest(b);
    }
  }

  lemma HostReplaced(host: string, next: string)
    ensures Merge(WithoutToken(host), HostPatch(next)) == WithoutToken(next)
  {
    var a, b := WithoutToken(host)[SERVER].entries, HostPatch(next)[SERVER].entries;
    MergeLookup(a, b, HOST);
    MergeLookup(a, b, TOKEN);
    assert Merge(a, b) == WithoutToken(next)[SERVER].entries;
    MergeLookup(WithoutToken(host), HostPatch(next), SERVER);
  }

  /** The default host, opened to all and closed again. */
  lemma TokenStaysBehind(token: string, tokens: seq<string>)
    requires |tokens| == 3 && "" !in tokens && token != ""
    ensures var st, patches := Store(WithoutToken("127.0.0.1"), None), [HostPatch("0.0.0.0"), HostPatch("127.0.0.1")];
            && StrictRules(SERVER_RULES, SERVER_SHAPE) && StagedIsValid(SERVER_RULES, st)
            && NoToken(Apply(SERVER_RULES, StageAll(SERVER_RULES, st, patches), token).settings)
            && !NoToken(ApplyEach(SERVER_RULES, st, patches, tokens).settings)
  {
    ServerRulesAreStrict();
    NothingStaged(WithoutToken("127.0.0.1"));
    HostReplaced("127.0.0.1", "0.0.0.0");
    HostReplaced("0.0.0.0", "127.0.0.1");
    assert ServerOnly(WithoutToken("0.0.0.0")) && ServerOnly(WithoutToken("127.0.0.1"));
    OpenThenClose(SERVER_RULES, SERVER_SHAPE, WithoutToken("127.0.0.1"), "0.0.0.0", "127.0.0.1", token, tokens);
  }

  /** The server's host is a text that is not loopback, and its token is missing, null or empty. */
  predicate Unprotected(t: Table, loopback: string -> bool) {
    && "server" in t && t["server"].Dict?
    && var server := t["server"].entries;
    && "host" in server && server["host"].Text? && !loopback(server["host"].text)
    && ("auth_token" in server ==> server["auth_token"] == Null || server["auth_token"] == Text(""))
  }

  class ConfigManager {
    var settings: Table
    var staged: Option<Table>
    const rules: Rules

    constructor (rules: Rules, settings: Table)
      ensures View() == Store(settings, None) && this.rules == rules
    {
      this.settings := settings;
      this.staged := None;
      this.rules := rules;
    }

    function View(): Store
      reads this
    {
      Store(settings, staged)
    }

    method StagePatch(patch: Table) returns (ok: bool)
      modifies this
      ensures View() == Stage(rules, old(View()), patch)
      ensures ok <==> patch != map[] && rules.valid(Merge(settings, Merge(if old(staged).Some? then old(staged).value else map[], patch)))
      ensures staged == if ok then Some(Merge(if old(staged).Some? then old(staged).value else map[], patch)) else old(staged)
      ensures settings == old(settings)
    {
      if patch == map[] {
        return false;
      }
      var next := Merge(if staged.Some? then staged.value else map[], patch);
      var merged := Merge(settings, next);
      ok := rules.valid(merged);
      if ok {
        staged := Some(next);
      }
    }

    /** Returns the new token, if one was minted. */
    method EnsureServerAuthToken(token: string) returns (minted: Option<string>)
      modifies this`settings
      ensures settings == Mint(rules, old(settings), token)
      ensures minted == NewToken(rules, old(settings), token)
      ensures minted.Some? <==> Unprotected(old(settings), rules.loopback)
      ensures minted.Some? ==>
                && minted.value == token
                && settings == old(settings)["server" := Dict(old(settings)["server"].entries["auth_token" := Text(token)])]
      ensures minted.None? ==> settings == old(settings)
    {
      if SERVER !in settings || !settings[SERVER].Dict? {
        return None;
      }
      var server := settings[SERVER].entries;
      if HOST !in server || !server[HOST].Text? || rules.loopback(server[HOST].text) {
        return None;
      }
      if TOKEN in server && server[TOKEN] != Null && server[TOKEN] != Text("") {
        return None;
      }
      settings := settings[SERVER := Dict(server[TOKEN := Text(token)])];
      minted := Some(token);
    }

    method ApplyStaged(token: string) returns (applied: bool)
      modifies this
      ensures View() == Apply(rules, old(View()), token)
      ensures applied == old(staged).Some?
    {
      if staged.None? {
        return false;
      }
      settings := Merge(settings, staged.value);
      staged := None;
      var _ := EnsureServerAuthToken(token);
      applied := true;
    }
  }
}
