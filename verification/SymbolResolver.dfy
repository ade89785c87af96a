/** Mapping configured logical symbols to names of the broker's current catalog. */
module SymbolResolver {
  import opened Wrappers

  datatype Reason = CatalogUnavailable | NotInitialized | AliasUnavailable | AmbiguousBrokerSymbol
    | AmbiguousLogicalAlias
    | UnsupportedSymbol | UnsupportedBrokerSymbol

  datatype Failure = Failure(reason: Reason, candidates: set<string>)

  // ---- Inference ----

  function Lower(c: char): char { if 'A' <= c <= 'Z' then (c as int + 32) as char else c }
  function Upper(c: char): char { if 'a' <= c <= 'z' then (c as int - 32) as char else c }

  function Fold(s: string): (r: string)
    ensures |r| == |s| && forall i | 0 <= i < |s| :: r[i] == Lower(s[i])
  {
    if s == "" then "" else [Lower(s[0])] + Fold(s[1..])
  }

  function ToUpper(s: string): (r: string)
    ensures |r| == |s| && forall i | 0 <= i < |s| :: r[i] == Upper(s[i])
  {
    if s == "" then "" else [Upper(s[0])] + ToUpper(s[1..])
  }

  predicate EndsWith(s: string, suffix: string) { |suffix| <= |s| && s[|s| - |suffix|..] == suffix }

  predicate AllLetters(s: string) { forall c | c in s :: 'A' <= c <= 'Z' }

  const CRYPTO_BASES: set<string> := {"BTC", "ETH"}
  const KNOWN_SUFFIXES: set<string> := {"", "m", ".sim"}

  function WithoutSuffix(logical: string): string {
    if EndsWith(Fold(logical), ".sim") then logical[..|logical| - 4]
    else if EndsWith(Fold(logical), "m") then logical[..|logical| - 1]
    else logical
  }

  function Base(logical: string): string {
    var base := ToUpper(WithoutSuffix(logical));
    var quoted := if base in CRYPTO_BASES then base + "USD" else base;
    if |quoted| == 7 && quoted[3] == '_' && AllLetters(quoted[..3]) && AllLetters(quoted[4..]) then
      quoted[..3] + quoted[4..]
    else quoted
  }

  function Candidates(logical: string): set<string> {
    var base := Base(logical);
    {Fold(logical)} +
    (if |base| == 6 && AllLetters(base) then
       (set suffix | suffix in KNOWN_SUFFIXES :: Fold(base + suffix)) +
       (set suffix | suffix in KNOWN_SUFFIXES :: Fold(base[..3] + "_" + base[3..] + suffix))
     else {})
  }

  function Matches(logical: string, catalog: set<string>): set<string> {
    set s | s in catalog && Fold(s) in Candidates(logical)
  }

  function Only(s: set<string>): (r: string)
    requires |s| == 1
    ensures s == {r}
  {
    OnlyOne(s);
    var r :| r in s;
    r
  }

  lemma OnlyOne(s: set<string>)
    requires |s| == 1
    ensures exists r :: s == {r}
    ensures forall a, b | a in s && b in s :: a == b
  {
    var r :| r in s;
    assert |s - {r}| == 0;
    assert s == {r};
  }

  function ResolveOne(logical: string, aliases: map<string, string>, catalog: set<string>): Result<string, Failure> {
    if logical == "" then Err(Failure(UnsupportedSymbol, {}))
    else if logical in aliases then
      if aliases[logical] in catalog then Ok(aliases[logical]) else Err(Failure(AliasUnavailable, {aliases[logical]}))
    else if logical in catalog then Ok(logical)
    else
      var matches := Matches(logical, catalog);
      if |matches| == 1 then Ok(Only(matches))
      else if matches != {} then Err(Failure(AmbiguousBrokerSymbol, matches))
      else Err(Failure(UnsupportedSymbol, {}))
  }

  /** A resolved name is always one the catalog offers. */
  lemma ResolvedIsOffered(logical: string, aliases: map<string, string>, catalog: set<string>)
    requires ResolveOne(logical, aliases, catalog).Ok?
    ensures ResolveOne(logical, aliases, catalog).value in catalog
    ensures logical !in aliases && logical !in catalog ==>
              Matches(logical, catalog) == {ResolveOne(logical, aliases, catalog).value}
  {}

  // ---- What a whole initialization means ----

  datatype Book = Book(mapping: map<string, string>, reverse: map<string, string>, failures: map<string, Failure>)

  const BLANK: Book := Book(map[], map[], map[])

  /** Another configured name resolves to the same broker symbol. */
  ghost predicate Contested(logical: string, configured: seq<string>, aliases: map<string, string>,
                            catalog: set<string>) {
    exists other :: other in configured && other != logical
      && ResolveOne(other, aliases, catalog) == ResolveOne(logical, aliases, catalog)
  }

  ghost predicate Resolves(logical: string, broker: string, configured: seq<string>, aliases: map<string, string>,
                           catalog: set<string>) {
    logical in configured && ResolveOne(logical, aliases, catalog) == Ok(broker)
    && !Contested(logical, configured, aliases, catalog)
  }

  /** What the three tables hold, told name by name. */
  ghost predicate Describes(b: Book, configured: seq<string>, aliases: map<string, string>, catalog: set<string>) {
    && (forall logical, broker ::
          (logical in b.mapping && b.mapping[logical] == broker)
          <==> Resolves(logical, broker, configured, aliases, catalog))
    && (forall broker, logical ::
          (broker in b.reverse && b.reverse[broker] == logical)
          <==> Resolves(logical, broker, configured, aliases, catalog))
    && (forall logical :: logical in b.failures <==> logical in configured && logical !in b.mapping)
    && (forall logical | logical in b.failures ::
          b.failures[logical] == (match ResolveOne(logical, aliases, catalog)
                                  case Err(f) => f
                                  case Ok(broker) => Failure(AmbiguousLogicalAlias, {broker})))
  }

  /** The mapping and its reverse are inverse to each other, go to names of the catalog, and every configured name is
      in exactly one of mapping and failures. */
  lemma BookIsConsistent(b: Book, configured: seq<string>, aliases: map<string, string>, catalog: set<string>)
    requires Describes(b, configured, aliases, catalog)
    ensures forall l | l in b.mapping ::
              b.mapping[l] in b.reverse && b.reverse[b.mapping[l]] == l && b.mapping[l] in catalog
    ensures forall k | k in b.reverse :: b.reverse[k] in b.mapping && b.mapping[b.reverse[k]] == k
    ensures forall l :: l in configured <==> l in b.mapping || l in b.failures
    ensures forall l :: !(l in b.mapping && l in b.failures)
  {
    forall l | l in b.mapping
      ensures b.mapping[l] in b.reverse && b.reverse[b.mapping[l]] == l && b.mapping[l] in catalog && l in configured
    {
      assert Resolves(l, b.mapping[l], configured, aliases, catalog);
      ResolvedIsOffered(l, aliases, catalog);
    }
    forall k | k in b.reverse ensures b.reverse[k] in b.mapping && b.mapping[b.reverse[k]] == k {
      assert Resolves(b.reverse[k], k, configured, aliases, catalog);
    }
  }

  /** Further configured names may turn a resolved name into a failure, but never give it another broker symbol. */
  lemma MoreNamesNeverRedirect(b: Book, c: Book, configured: seq<string>, more: seq<string>,
                               aliases: map<string, string>, catalog: set<string>, logical: string)
    requires Describes(b, configured, aliases, catalog) && Describes(c, more, aliases, catalog)
    requires forall l | l in configured :: l in more
    ensures logical in b.mapping ==> logical in c.mapping || logical in c.failures
    ensures logical in b.mapping && logical in c.mapping ==> c.mapping[logical] == b.mapping[logical]
    ensures logical in configured && logical in c.mapping ==> logical in b.mapping
    ensures logical in b.mapping && logical in c.failures
            ==> c.failures[logical] == Failure(AmbiguousLogicalAlias, {b.mapping[logical]})
  {
    if logical in b.mapping {
      assert Resolves(logical, b.mapping[logical], configured, aliases, catalog);
    }
    if logical in c.mapping {
      assert Resolves(logical, c.mapping[logical], more, aliases, catalog);
      if logical in configured {
        forall other | other in configured && other != logical
          ensures ResolveOne(other, aliases, catalog) != ResolveOne(logical, aliases, catalog)
        {
          assert other in more;
        }
        assert Resolves(logical, c.mapping[logical], configured, aliases, catalog);
      }
    }
  }

  function Resolve(b: Book, initialized: bool, logical: string): Result<string, Failure> {
    if !initialized then Err(Failure(NotInitialized, {}))
    else if logical in b.mapping then Ok(b.mapping[logical])
    else if logical in b.failures then Err(b.failures[logical])
    else Err(Failure(UnsupportedSymbol, {}))
  }

  function LogicalFor(b: Book, initialized: bool, broker: string): Result<string, Failure> {
    if !initialized then Err(Failure(NotInitialized, {}))
    else if broker in b.reverse then Ok(b.reverse[broker])
    else Err(Failure(UnsupportedBrokerSymbol, {}))
  }

  /** A name resolves to a broker symbol exactly when that symbol is normalized back to the name, and then the symbol is
      in the catalog and no other configured name reaches it. */
  lemma ResolveAndBack(b: Book, configured: seq<string>, aliases: map<string, string>, catalog: set<string>,
                       logical: string, broker: string)
    requires Describes(b, configured, aliases, catalog)
    ensures Resolve(b, true, logical) == Ok(broker) <==> LogicalFor(b, true, broker) == Ok(logical)
    ensures Resolve(b, true, logical) == Ok(broker) ==> logical in configured && broker in catalog
    ensures Resolve(b, true, logical) == Ok(broker) ==> forall other | other != logical ::
              Resolve(b, true, other) != Ok(broker)
  {
    assert Resolves(logical, broker, configured, aliases, catalog)
           <==> (logical in b.mapping && b.mapping[logical] == broker);
    if Resolve(b, true, logical) == Ok(broker) {
      ResolvedIsOffered(logical, aliases, catalog);
      forall other | other != logical ensures Resolve(b, true, other) != Ok(broker) {
        assert Resolves(other, broker, configured, aliases, catalog)
               <==> (other in b.mapping && b.mapping[other] == broker);
      }
    }
  }

  // ---- How the tables come about ----

  /** Every name resolved on its own. */
  ghost predicate Mapped(m: map<string, string>, f: map<string, Failure>, names: seq<string>,
                         aliases: map<string, string>, catalog: set<string>) {
    && (forall l :: l in m <==> l in names && ResolveOne(l, aliases, catalog).Ok?)
    && (forall l | l in m :: ResolveOne(l, aliases, catalog) == Ok(m[l]))
    && (forall l :: l in f <==> l in names && ResolveOne(l, aliases, catalog).Err?)
    && (forall l | l in f :: ResolveOne(l, aliases, catalog) == Err(f[l]))
  }

  predicate NoRepeats(s: seq<string>) { forall i, j | 0 <= i < j < |s| :: s[i] != s[j] }

  /** The names that reach each broker symbol, each once. */
  ghost predicate Grouped(groups: map<string, seq<string>>, m: map<string, string>) {
    && (forall k | k in groups :: groups[k] != [] && NoRepeats(groups[k]) && forall l | l in groups[k] ::
        l in m && m[l] == k)
    && (forall l | l in m :: m[l] in groups && l in groups[m[l]])
  }

  /** Symbols reached by one name keep it; those reached by several names fail all of them. */
  ghost predicate Separated(b: Book, m: map<string, string>, f: map<string, Failure>, groups: map<string, seq<string>>,
                            settled: set<string>)
    requires Grouped(groups, m)
  {
    && MappingSeparated(b.mapping, m, groups, settled)
    && (forall k :: k in b.reverse <==> k in groups && k in settled && |groups[k]| == 1)
    && (forall k | k in b.reverse :: b.reverse[k] == groups[k][0])
    && FailuresSeparated(b.failures, m, f, groups, settled)
  }

  ghost predicate MappingSeparated(after: map<string, string>, m: map<string, string>, groups: map<string, seq<string>>,
                                   settled: set<string>)
    requires Grouped(groups, m)
  {
    && (forall l :: l in after <==> l in m && (m[l] !in settled || |groups[m[l]]| == 1))
    && (forall l | l in after :: after[l] == m[l])
  }

  ghost predicate FailuresSeparated(after: map<string, Failure>, m: map<string, string>, f: map<string, Failure>,
                                    groups: map<string, seq<string>>, settled: set<string>)
    requires Grouped(groups, m)
  {
    && (forall l :: l in after <==> l in f || (l in m && m[l] in settled && |groups[m[l]]| > 1))
    && (forall l | l in after :: after[l] == if l in m then Failure(AmbiguousLogicalAlias, {m[l]}) else f[l])
  }

  lemma SharedIsContested(m: map<string, string>, f: map<string, Failure>, groups: map<string, seq<string>>,
                          configured: seq<string>, aliases: map<string, string>, catalog: set<string>, l: string)
    requires Mapped(m, f, configured, aliases, catalog) && Grouped(groups, m) && l in m && |groups[m[l]]| > 1
    ensures Contested(l, configured, aliases, catalog)
  {
    var names := groups[m[l]];
    assert names[0] in names && names[1] in names && names[0] != names[1];
    var other := if names[0] == l then names[1] else names[0];
    assert other in m && m[other] == m[l];
  }

  lemma ContestedIsShared(m: map<string, string>, f: map<string, Failure>, groups: map<string, seq<string>>,
                          configured: seq<string>, aliases: map<string, string>, catalog: set<string>, l: string)
    requires Mapped(m, f, configured, aliases, catalog) && Grouped(groups, m) && l in m
    requires Contested(l, configured, aliases, catalog)
    ensures |groups[m[l]]| > 1
  {
    var other :| other in configured && other != l
      && ResolveOne(other, aliases, catalog) == ResolveOne(l, aliases, catalog);
    assert other in m && m[other] == m[l];
    TwoMembers(groups[m[l]], l, other);
  }

  lemma TwoMembers(s: seq<string>, a: string, b: string)
    requires a in s && b in s && a != b
    ensures |s| > 1
  {}

  lemma ContestedIff(m: map<string, string>, f: map<string, Failure>, groups: map<string, seq<string>>,
                     configured: seq<string>, aliases: map<string, string>, catalog: set<string>, l: string)
    requires Mapped(m, f, configured, aliases, catalog) && Grouped(groups, m) && l in m
    ensures Contested(l, configured, aliases, catalog) <==> |groups[m[l]]| > 1
  {
    if |groups[m[l]]| > 1 {
      SharedIsContested(m, f, groups, configured, aliases, catalog, l);
    } else if Contested(l, configured, aliases, catalog) {
      ContestedIsShared(m, f, groups, configured, aliases, catalog, l);
    }
  }

  lemma OneStays(after: map<string, string>, failed: map<string, Failure>, m: map<string, string>,
                 f: map<string, Failure>, groups: map<string, seq<string>>, settled: set<string>, k: string)
    requires Grouped(groups, m) && k in groups && |groups[k]| == 1
    requires MappingSeparated(after, m, groups, settled) && FailuresSeparated(failed, m, f, groups, settled)
    ensures MappingSeparated(after, m, groups, settled + {k}) && FailuresSeparated(failed, m, f, groups, settled + {k})
  {}

  lemma OneKeeps(b: Book, m: map<string, string>, f: map<string, Failure>, groups: map<string, seq<string>>,
                 settled: set<string>, k: string)
    requires Grouped(groups, m) && Separated(b, m, f, groups, settled) && k in groups && |groups[k]| == 1
    ensures Separated(b.(reverse := b.reverse[k := groups[k][0]]), m, f, groups, settled + {k})
  {
    OneStays(b.mapping, b.failures, m, f, groups, settled, k);
  }

  lemma GroupMembers(m: map<string, string>, groups: map<string, seq<string>>, k: string, l: string)
    requires Grouped(groups, m) && k in groups
    ensures l in groups[k] <==> l in m && m[l] == k
  {}

  lemma SeveralLeave(after: map<string, string>, m: map<string, string>, groups: map<string, seq<string>>,
                     settled: set<string>, k: string)
    requires Grouped(groups, m) && MappingSeparated(after, m, groups, settled) && k in groups && |groups[k]| > 1
    ensures MappingSeparated(map l | l in after && l !in groups[k] :: after[l], m, groups, settled + {k})
  {
    forall l ensures l in groups[k] <==> l in m && m[l] == k { GroupMembers(m, groups, k, l); }
  }

  lemma SeveralEnter(after: map<string, Failure>, m: map<string, string>, f: map<string, Failure>,
                     groups: map<string, seq<string>>, settled: set<string>, k: string)
    requires Grouped(groups, m) && FailuresSeparated(after, m, f, groups, settled) && k in groups && |groups[k]| > 1
    ensures FailuresSeparated(after + map l | l in groups[k] ::
                              Failure(AmbiguousLogicalAlias, {k}), m, f, groups, settled + {k})
  {
    forall l ensures l in groups[k] <==> l in m && m[l] == k { GroupMembers(m, groups, k, l); }
  }

  lemma SeveralFail(b: Book, m: map<string, string>, f: map<string, Failure>, groups: map<string, seq<string>>,
                    settled: set<string>, k: string)
    requires Grouped(groups, m) && Separated(b, m, f, groups, settled) && k in groups && |groups[k]| > 1
    ensures var names := groups[k];
            Separated(Book(map l | l in b.mapping && l !in names :: b.mapping[l], b.reverse,
                           b.failures + map l | l in names ::
                             Failure(AmbiguousLogicalAlias, {k})), m, f, groups, settled + {k})
  {
    SeveralLeave(b.mapping, m, groups, settled, k);
    SeveralEnter(b.failures, m, f, groups, settled, k);
  }

  lemma SeparatedDescribes(b: Book, m: map<string, string>, f: map<string, Failure>, groups: map<string, seq<string>>,
                           configured: seq<string>, aliases: map<string, string>, catalog: set<string>)
    requires Mapped(m, f, configured, aliases, catalog) && Grouped(groups, m) && Separated(b, m, f, groups, groups.Keys)
    ensures Describes(b, configured, aliases, catalog)
  {
    forall l, k ensures (l in b.mapping && b.mapping[l] == k) <==> Resolves(l, k, configured, aliases, catalog) {
      if l in m {
        ContestedIff(m, f, groups, configured, aliases, catalog, l);
      }
    }
    forall k, l ensures (k in b.reverse && b.reverse[k] == l) <==> Resolves(l, k, configured, aliases, catalog) {
      if l in m {
        ContestedIff(m, f, groups, configured, aliases, catalog, l);
      }
      if k in b.reverse {
        assert groups[k][0] in groups[k];
      }
    }
  }

  // ---- The resolver ----

  datatype Catalog = Unavailable | Offered(names: seq<string>)

  function Names(c: Catalog): set<string> { if c.Offered? then set n | n in c.names && n != "" else {} }

  class SymbolResolver {
    const aliases: map<string, string>
    var mapping: map<string, string>
    var reverseMapping: map<string, string>
    var failures: map<string, Failure>
    var unresolved: seq<string>
    var brokerSymbols: set<string>
    var initialized: bool

    constructor (aliases: map<string, string>)
      ensures this.aliases == aliases && !initialized && State() == BLANK
    {
      this.aliases := aliases;
      mapping, reverseMapping, failures, unresolved, brokerSymbols, initialized := map[], map[], map[], [], {}, false;
    }

    function State(): Book
      reads this
    {
      Book(mapping, reverseMapping, failures)
    }

    ghost predicate Valid(configured: seq<string>)
      reads this
    {
      initialized ==> Describes(State(), configured, aliases, brokerSymbols)
    }

    /** Replaces everything by what the current catalog offers; without a catalog nothing is left. */
    method Initialize(catalog: Catalog, configured: seq<string>) returns (r: Result<(), Failure>)
      modifies this
      ensures r.Ok? <==> catalog.Offered?
      ensures initialized == r.Ok? && brokerSymbols == Names(catalog)
      ensures r.Ok? ==> Describes(State(), configured, aliases, brokerSymbols)
      ensures r.Ok? ==> forall l :: l in unresolved <==> l in failures
      ensures r.Err? ==> State() == BLANK && unresolved == []
    {
      mapping, reverseMapping, failures, unresolved, brokerSymbols, initialized := map[], map[], map[], [], {}, false;
      if catalog.Unavailable? {
        return Err(Failure(CatalogUnavailable, {}));
      }
      brokerSymbols := Names(catalog);
      var logicals := WithoutRepeats(configured);

      MapEach(logicals);
      var byBroker := GroupByBroker(logicals);
      ghost var mapped, failed := mapping, failures;
      Separate(byBroker);
      SeparatedDescribes(State(), mapped, failed, byBroker, configured, aliases, brokerSymbols);
      unresolved := Unresolved(logicals);
      initialized := true;
      return Ok(());
    }

    function ResolveName(logical: string): Result<string, Failure>
      reads this
    {
      Resolve(State(), initialized, logical)
    }

    function Normalize(broker: string): Result<string, Failure>
      reads this
    {
      LogicalFor(State(), initialized, broker)
    }

    method WithoutRepeats(configured: seq<string>) returns (r: seq<string>)
      ensures forall l :: l in r <==> l in configured
      ensures forall i, j | 0 <= i < j < |r| :: r[i] != r[j]
    {
      r := [];
      for i := 0 to |configured|
        invariant forall l :: l in r <==> l in configured[..i]
        invariant forall i, j | 0 <= i < j < |r| :: r[i] != r[j]
      {
        assert configured[..i + 1] == configured[..i] + [configured[i]];
        if configured[i] !in r {
          r := r + [configured[i]];
        }
      }
      assert configured[..|configured|] == configured;
    }

    // Resolves each name on its own.
    method MapEach(logicals: seq<string>)
      requires mapping == map[] && failures == map[] && NoRepeats(logicals)
      modifies this`mapping, this`failures
      ensures Mapped(mapping, failures, logicals, aliases, brokerSymbols)
    {
      for n := 0 to |logicals|
        invariant Mapped(mapping, failures, logicals[..n], aliases, brokerSymbols)
      {
        var logical := logicals[n];
        assert logicals[..n + 1] == logicals[..n] + [logical];
        assert logical !in logicals[..n];
        match ResolveOne(logical, aliases, brokerSymbols)
        case Ok(broker) =>
          mapping := mapping[logical := broker];
        case Err(failure) =>
          failures := failures[logical := failure];
      }
      assert logicals[..|logicals|] == logicals;
    }

    method GroupByBroker(logicals: seq<string>) returns (byBroker: map<string, seq<string>>)
      requires NoRepeats(logicals) && forall l | l in mapping :: l in logicals
      ensures Grouped(byBroker, mapping)
    {
      byBroker := map[];
      for n := 0 to |logicals|
        invariant forall k | k in byBroker :: byBroker[k] != [] && NoRepeats(byBroker[k])
        invariant forall k | k in byBroker :: forall l | l in byBroker[k] ::
                    l in mapping && mapping[l] == k && l in logicals[..n]
        invariant forall l | l in mapping && l in logicals[..n] :: mapping[l] in byBroker && l in byBroker[mapping[l]]
      {
        var logical := logicals[n];
        assert logicals[..n + 1] == logicals[..n] + [logical];
        assert logical !in logicals[..n];
        if logical in mapping {
          var broker := mapping[logical];
          byBroker := byBroker[broker := (if broker in byBroker then byBroker[broker] else []) + [logical]];
        }
      }
      assert logicals[..|logicals|] == logicals;
    }

    // Takes the names of one contested symbol out of the mapping.
    method FailAll(names: seq<string>, broker: string)
      requires forall l | l in names :: l in mapping
      modifies this`mapping, this`failures
      ensures mapping == map l | l in old(mapping) && l !in names :: old(mapping)[l]
      ensures failures == old(failures) + map l | l in names :: Failure(AmbiguousLogicalAlias, {broker})
    {
      for n := 0 to |names|
        invariant mapping == map l | l in old(mapping) && l !in names[..n] :: old(mapping)[l]
        invariant failures == old(failures) + map l | l in names[..n] :: Failure(AmbiguousLogicalAlias, {broker})
      {
        assert names[..n + 1] == names[..n] + [names[n]];
        mapping := map l | l in mapping && l != names[n] :: mapping[l];
        failures := failures[names[n] := Failure(AmbiguousLogicalAlias, {broker})];
      }
      assert names[..|names|] == names;
    }

    method Separate(byBroker: map<string, seq<string>>)
      requires Grouped(byBroker, mapping) && reverseMapping == map[] && mapping.Keys !! failures.Keys
      modifies this`mapping, this`failures, this`reverseMapping
      ensures Separated(State(), old(mapping), old(failures), byBroker, byBroker.Keys)
    {
      var rest := byBroker.Keys;
      while rest != {}
        invariant rest <= byBroker.Keys
        invariant Separated(State(), old(mapping), old(failures), byBroker, byBroker.Keys - rest)
        decreases |rest|
      {
        var broker :| broker in rest;
        ghost var settled := byBroker.Keys - rest;
        rest := rest - {broker};
        assert byBroker.Keys - rest == settled + {broker};
        Settle(byBroker, broker, old(mapping), old(failures), settled);
      }
    }

    method Settle(byBroker: map<string, seq<string>>, broker: string, ghost m: map<string, string>,
                  ghost f: map<string, Failure>, ghost settled: set<string>)
      requires Grouped(byBroker, m) && broker in byBroker && broker !in settled
      requires Separated(State(), m, f, byBroker, settled)
      modifies this`mapping, this`failures, this`reverseMapping
      ensures Separated(State(), m, f, byBroker, settled + {broker})
    {
      var names := byBroker[broker];
      if |names| > 1 {
        SeveralFail(State(), m, f, byBroker, settled, broker);
        FailAll(names, broker);
      } else {
        OneKeeps(State(), m, f, byBroker, settled, broker);
        reverseMapping := reverseMapping[broker := names[0]];
      }
    }

    method Unresolved(logicals: seq<string>) returns (r: seq<string>)
      ensures forall l :: l in r <==> l in logicals && l in failures
    {
      r := [];
      for i := 0 to |logicals|
        invariant forall l :: l in r <==> l in logicals[..i] && l in failures
      {
        assert logicals[..i + 1] == logicals[..i] + [logicals[i]];
        if logicals[i] in failures {
          r := r + [logicals[i]];
        }
      }
      assert logicals[..|logicals|] == logicals;
    }
  }
}
