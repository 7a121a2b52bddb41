/**
 * pi's flat tool namespace. Every server's tool is called mcp__<server>__<tool>, so an allowlist of such
 * names is only sound when each parses one way. The checks of the configuration loader and of the
 * start-up probe are shown to be exactly what that takes.
 */
module ToolNames {
  import opened Basics

  // --------------------------------------------------------------- spelling

  predicate ToolChar(c: char) {
    'A' <= c <= 'Z' || 'a' <= c <= 'z' || '0' <= c <= '9' || c == '_'
  }

  function Normalize(s: string): (n: string)
    ensures |n| == |s|
  {
    seq(|s|, k requires 0 <= k < |s| => if ToolChar(s[k]) then s[k] else '_')
  }

  predicate DoubleAt(s: string, i: nat) {
    i + 1 < |s| && s[i] == '_' && s[i + 1] == '_'
  }

  predicate HasDouble(s: string) {
    exists i | 0 <= i < |s| :: DoubleAt(s, i)
  }

  predicate CleanServer(norm: string) {
    !HasDouble(norm) && !(norm != "" && norm[|norm| - 1] == '_')
  }

  predicate CleanTool(norm: string) {
    !HasDouble(norm) && !(norm != "" && norm[0] == '_')
  }

  function Joined(server: string, tool: string): string {
    server + "__" + tool
  }

  function ToolName(server: string, tool: string): string {
    "mcp__" + Joined(Normalize(server), Normalize(tool))
  }

  /** Normalizing keeps letters, digits and underscores, and puts an underscore for anything else. */
  lemma NormalizeIs(s: string, k: nat)
    requires k < |s|
    ensures Normalize(s)[k] == s[k] <==>
              'A' <= s[k] <= 'Z' || 'a' <= s[k] <= 'z' || '0' <= s[k] <= '9' || s[k] == '_'
    ensures Normalize(s)[k] == s[k] || Normalize(s)[k] == '_'
    ensures Normalize(Normalize(s)) == Normalize(s)
  {
  }

  /** A full name is the prefix, the server, two underscores and the tool, and its own normal form. */
  lemma ToolNameIs(server: string, tool: string)
    ensures ToolName(server, tool) == "mcp" + "__" + Normalize(server) + "__" + Normalize(tool)
    ensures Normalize(ToolName(server, tool)) == ToolName(server, tool)
    ensures ToolName(server, tool) == ToolName(Normalize(server), Normalize(tool))
  {
    assert "mcp" + "__" == "mcp__";
    assert "mcp__" + (Normalize(server) + "__" + Normalize(tool))
        == "mcp__" + Normalize(server) + "__" + Normalize(tool);
    assert Normalize(Normalize(server)) == Normalize(server) && Normalize(Normalize(tool)) == Normalize(tool);
  }

  // ---------------------------------------------------------- unique parsing

  /** With clean parts the separator is the only double underscore. */
  lemma OnlySeparator(server: string, tool: string, i: nat)
    requires CleanServer(server) && CleanTool(tool) && DoubleAt(Joined(server, tool), i)
    ensures i == |server|
  {
    var u := Joined(server, tool);
    if i + 1 < |server| {
      assert DoubleAt(server, i);
    } else if i > |server| + 1 {
      assert u[i] == tool[i - |server| - 2] && u[i + 1] == tool[i - |server| - 1];
      assert DoubleAt(tool, i - |server| - 2);
    }
  }

  lemma CleanNamesParseOneWay(server: string, tool: string, server': string, tool': string)
    requires CleanServer(server) && CleanTool(tool)
    requires Joined(server, tool) == Joined(server', tool')
    ensures server == server' && tool == tool'
  {
    var u := Joined(server', tool');
    assert u[|server'|] == '_' && u[|server'| + 1] == '_';
    assert DoubleAt(u, |server'|);
    OnlySeparator(server, tool, |server'|);
    assert server == u[..|server|] && tool == u[|server| + 2..];
    assert server' == u[..|server'|] && tool' == u[|server'| + 2..];
  }

  /** An unclean part always gives a second parse. */
  lemma UncleanNamesParseTwoWays(server: string, tool: string) returns (server': string, tool': string)
    requires !(CleanServer(server) && CleanTool(tool))
    ensures Joined(server', tool') == Joined(server, tool) && server' != server
  {
    var u := Joined(server, tool);
    if HasDouble(server) {
      var i :| 0 <= i < |server| && DoubleAt(server, i);
      server', tool' := server[..i], server[i + 2..] + "__" + tool;
      assert server == server[..i] + "__" + server[i + 2..];
    } else if server != "" && server[|server| - 1] == '_' {
      server', tool' := server[..|server| - 1], "_" + tool;
      assert server == server[..|server| - 1] + "_";
    } else if HasDouble(tool) {
      var i :| 0 <= i < |tool| && DoubleAt(tool, i);
      server', tool' := server + "__" + tool[..i], tool[i + 2..];
      assert tool == tool[..i] + "__" + tool[i + 2..];
    } else {
      server', tool' := server + "_", tool[1..];
      assert tool == "_" + tool[1..];
    }
    assert Joined(server', tool') == u;
  }

  /** The checks are exact: a joined name parses one way if and only if both parts are clean. */
  lemma ParsesOneWayIff(server: string, tool: string)
    ensures CleanServer(server) && CleanTool(tool) <==>
            forall s: string, t: string :: Joined(s, t) == Joined(server, tool) ==> s == server && t == tool
  {
    if CleanServer(server) && CleanTool(tool) {
      forall s: string, t: string | Joined(s, t) == Joined(server, tool)
        ensures s == server && t == tool
      {
        CleanNamesParseOneWay(server, tool, s, t);
      }
    } else {
      var s, t := UncleanNamesParseTwoWays(server, tool);
    }
  }

  lemma ToolNamesParseOneWay(server: string, tool: string, server': string, tool': string)
    requires CleanServer(Normalize(server)) && CleanTool(Normalize(tool))
    requires ToolName(server, tool) == ToolName(server', tool')
    ensures Normalize(server) == Normalize(server') && Normalize(tool) == Normalize(tool')
  {
    assert ToolName(server, tool)[5..] == Joined(Normalize(server), Normalize(tool));
    assert ToolName(server', tool')[5..] == Joined(Normalize(server'), Normalize(tool'));
    CleanNamesParseOneWay(Normalize(server), Normalize(tool), Normalize(server'), Normalize(tool'));
  }

  // ------------------------------------------------- the configuration loader

  predicate LowerDigit(c: char) {
    'a' <= c <= 'z' || '0' <= c <= '9'
  }

  /** ^[a-z0-9][a-z0-9_-]*$ */
  predicate ServerName(s: string) {
    s != "" && LowerDigit(s[0]) && forall k | 1 <= k < |s| :: LowerDigit(s[k]) || s[k] == '_' || s[k] == '-'
  }

  function LowerLetters(): string {
    "abcdefghijklmnopqrstuvwxyz"
  }

  lemma LettersAreListed(c: char)
    ensures 'a' <= c <= 'z' <==> c in LowerLetters()
  {
    var letters := LowerLetters();
    if 'a' <= c <= 'z' {
      assert letters[(c - 'a') as int] == c;
    }
  }

  /** The names the pattern admits, letter by letter. */
  lemma ServerNameIs(s: string)
    ensures ServerName(s) <==>
              && s != "" && (s[0] in LowerLetters() || s[0] in "0123456789")
              && forall k | 0 <= k < |s| :: s[k] in LowerLetters() || s[k] in "0123456789" || s[k] in "_-"
  {
    forall k | 0 <= k < |s|
      ensures LowerDigit(s[k]) <==> s[k] in LowerLetters() || s[k] in "0123456789"
    {
      LettersAreListed(s[k]);
      DigitsAreListed(s[k]);
    }
  }

  lemma DigitsAreListed(c: char)
    ensures '0' <= c <= '9' <==> c in "0123456789"
  {
    var digits := "0123456789";
    if '0' <= c <= '9' {
      assert digits[(c - '0') as int] == c;
    }
  }

  function Dashless(s: string): (n: string)
    ensures |n| == |s|
  {
    seq(|s|, k requires 0 <= k < |s| => if s[k] == '-' then '_' else s[k])
  }

  const FRAMEWORK := "framework"

  datatype NameError = Invalid(name: string) | Reserved | Ambiguous(name: string) | Collide(a: string, b: string)

  predicate AcceptedName(name: string) {
    ServerName(name) && name != FRAMEWORK && CleanServer(Dashless(name))
  }

  /** Server names as the loader accepts them: each by itself, and no two alike once dashes are gone. */
  ghost predicate AcceptedNames(names: seq<string>) {
    && (forall k | 0 <= k < |names| :: AcceptedName(names[k]))
    && (forall j, k | 0 <= j < k < |names| :: Dashless(names[j]) != Dashless(names[k]))
  }

  /** The loader's two passes over the declared server names. */
  method CheckServerNames(names: seq<string>) returns (err: Option<NameError>)
    ensures err == None <==> AcceptedNames(names)
  {
    for k := 0 to |names|
      invariant forall j | 0 <= j < k :: AcceptedName(names[j])
    {
      if !ServerName(names[k]) {
        return Some(Invalid(names[k]));
      }
      if names[k] == FRAMEWORK {
        return Some(Reserved);
      }
      if !CleanServer(Dashless(names[k])) {
        return Some(Ambiguous(names[k]));
      }
    }
    var seen: map<string, string> := map[];
    for k := 0 to |names|
      invariant forall key :: key in seen <==> exists j | 0 <= j < k :: Dashless(names[j]) == key
      invariant forall i, j | 0 <= i < j < k :: Dashless(names[i]) != Dashless(names[j])
    {
      var key := Dashless(names[k]);
      if key in seen {
        return Some(Collide(seen[key], names[k]));
      }
      seen := seen[key := names[k]];
    }
    return None;
  }

  /** On accepted names the loader's and pi's spelling agree. */
  lemma DashlessIsNormal(name: string)
    requires ServerName(name)
    ensures Dashless(name) == Normalize(name)
  {
  }

  /** Nothing but the reserved name itself is spelled like the framework server. */
  lemma OnlyFrameworkIsFramework(name: string)
    requires ServerName(name) && Normalize(name) == FRAMEWORK
    ensures name == FRAMEWORK
  {
    forall k | 0 <= k < |name|
      ensures name[k] == FRAMEWORK[k]
    {
      assert Normalize(name)[k] == FRAMEWORK[k];
      assert FRAMEWORK[k] != '_';
    }
  }

  // ------------------------------------------------------- the start-up probe

  const FINISH_TASK := "finish_task"

  /** What the probe of one server yields: the tools it lists, or None when it cannot be probed. */
  type Listing = Option<seq<string>>

  /** The full names of a server's tools, in listing order. */
  function FullNames(server: string, tools: seq<string>): (names: seq<string>)
    ensures |names| == |tools|
  {
    seq(|tools|, k requires 0 <= k < |tools| => ToolName(server, tools[k]))
  }

  /** A listing the probe accepts: not empty, every name clean, no two normalized alike. */
  ghost predicate AcceptedTools(server: string, tools: seq<string>) {
    && tools != []
    && (forall k | 0 <= k < |tools| :: CleanTool(Normalize(tools[k])))
    && (forall j, k | 0 <= j < k < |tools| :: ToolName(server, tools[j]) != ToolName(server, tools[k]))
  }

  // Names are kept in order.

  predicate Leq(a: string, b: string) {
    a == "" || (b != "" && (a[0] < b[0] || (a[0] == b[0] && Leq(a[1..], b[1..]))))
  }

  /** Position k is the first at which the two differ. */
  predicate DifferAt(a: string, b: string, k: nat) {
    k < |a| && k < |b| && a[..k] == b[..k] && a[k] != b[k]
  }

  lemma DifferLater(a: string, b: string, k: nat)
    requires a != "" && b != "" && a[0] == b[0]
    ensures DifferAt(a, b, k + 1) <==> DifferAt(a[1..], b[1..], k)
  {
    if k < |a| - 1 && k < |b| - 1 {
      assert a[..k + 1] == [a[0]] + a[1..][..k] && b[..k + 1] == [b[0]] + b[1..][..k];
      assert a[1..][..k] == a[..k + 1][1..] && b[1..][..k] == b[..k + 1][1..];
    }
  }

  /** Names are compared by their first differing character; a name comes before its extensions. */
  lemma {:induction false} LeqIsLexicographic(a: string, b: string)
    ensures Leq(a, b) <==> a <= b || exists k: nat :: DifferAt(a, b, k) && a[k] < b[k]
  {
    if a != "" && b != "" {
      if a[0] == b[0] {
        LeqIsLexicographic(a[1..], b[1..]);
        forall k: nat
          ensures DifferAt(a, b, k + 1) <==> DifferAt(a[1..], b[1..], k)
        {
          DifferLater(a, b, k);
        }
        FirstDiffers(a, b);
        assert a == [a[0]] + a[1..] && b == [b[0]] + b[1..];
      } else {
        assert DifferAt(a, b, 0);
        FirstDiffers(a, b);
      }
    }
  }

  lemma FirstDiffers(a: string, b: string)
    requires a != "" && b != ""
    ensures forall k: nat | DifferAt(a, b, k) :: if a[0] == b[0] then k > 0 else k == 0
  {
    forall k: nat | DifferAt(a, b, k)
      ensures if a[0] == b[0] then k > 0 else k == 0
    {
      if k > 0 {
        assert a[..k][0] == b[..k][0];
      }
    }
  }

  predicate Ordered(names: seq<string>) {
    forall j, k | 0 <= j < k < |names| :: Leq(names[j], names[k])
  }

  function Insert(name: string, names: seq<string>): seq<string> {
    if names == [] then [name]
    else if Leq(name, names[0]) then [name] + names
    else [names[0]] + Insert(name, names[1..])
  }

  function Sort(names: seq<string>): seq<string> {
    if names == [] then [] else Insert(names[0], Sort(names[1..]))
  }

  lemma {:induction false} LeqIsTotal(a: string, b: string)
    ensures Leq(a, b) || Leq(b, a)
  {
    if a != "" && b != "" && a[0] == b[0] {
      LeqIsTotal(a[1..], b[1..]);
    }
  }

  lemma {:induction false} LeqIsTransitive(a: string, b: string, c: string)
    requires Leq(a, b) && Leq(b, c)
    ensures Leq(a, c)
  {
    if a != "" && a[0] == b[0] && b[0] == c[0] {
      LeqIsTransitive(a[1..], b[1..], c[1..]);
    }
  }

  lemma {:induction false} InsertKeeps(name: string, names: seq<string>)
    requires Ordered(names)
    ensures Ordered(Insert(name, names)) && multiset(Insert(name, names)) == multiset(names) + multiset{name}
  {
    if names != [] {
      var rest := names[1..];
      assert names == [names[0]] + rest;
      LeqIsTotal(name, names[0]);
      if Leq(name, names[0]) {
        forall k | 0 <= k < |names|
          ensures Leq(name, names[k])
        {
          if k > 0 {
            LeqIsTransitive(name, names[0], names[k]);
          }
        }
      } else {
        InsertKeeps(name, rest);
        forall k | 0 <= k < |Insert(name, rest)|
          ensures Leq(names[0], Insert(name, rest)[k])
        {
          assert Insert(name, rest)[k] in multiset(rest) + multiset{name};
        }
      }
    }
  }

  /** The same names, in order. */
  lemma {:induction false} SortIsOrdered(names: seq<string>)
    ensures Ordered(Sort(names)) && multiset(Sort(names)) == multiset(names)
  {
    if names != [] {
      assert names == [names[0]] + names[1..];
      SortIsOrdered(names[1..]);
      InsertKeeps(names[0], Sort(names[1..]));
    }
  }

  lemma SortKeepsMembers(names: seq<string>, name: string)
    ensures name in Sort(names) <==> name in names
  {
    SortIsOrdered(names);
    assert name in Sort(names) <==> name in multiset(Sort(names));
  }

  method ProbeServer(server: string, listing: Listing) returns (names: Option<seq<string>>)
    ensures names.Some? <==> listing.Some? && AcceptedTools(server, listing.value)
    ensures names.Some? ==> names.value == Sort(FullNames(server, listing.value))
  {
    if listing == None {
      return None;
    }
    var tools := listing.value;
    var full: seq<string>, byNormalized: set<string> := [], {};
    for k := 0 to |tools|
      invariant forall j | 0 <= j < k :: CleanTool(Normalize(tools[j]))
      invariant |full| == k && forall j | 0 <= j < k :: full[j] == ToolName(server, tools[j])
      invariant forall name :: name in byNormalized <==> name in full
      invariant forall i, j | 0 <= i < j < k :: ToolName(server, tools[i]) != ToolName(server, tools[j])
    {
      if !CleanTool(Normalize(tools[k])) {
        return None;
      }
      var name := ToolName(server, tools[k]);
      if name in byNormalized {
        var j :| 0 <= j < k && full[j] == name;
        return None;
      }
      byNormalized := byNormalized + {name};
      full := full + [name];
    }
    if |full| == 0 {
      return None;
    }
    assert full == FullNames(server, tools);
    return Some(Sort(full));
  }

  /** Everything the probe of an agent checks. */
  ghost predicate AcceptedProbe(kinds: seq<string>, servers: seq<string>, listings: seq<Listing>) {
    && |listings| == |servers|
    && (forall k | 0 <= k < |kinds| :: CleanTool(Normalize(kinds[k])))
    && (forall k | 0 <= k < |servers| :: CleanServer(Normalize(servers[k])))
    && (forall k | 0 <= k < |servers| :: listings[k].Some? && AcceptedTools(servers[k], listings[k].value))
  }

  /** Probes every declared server, or fails at the first thing that breaks the namespace. */
  method ProbeMCP(kinds: seq<string>, servers: seq<string>, listings: seq<Listing>)
    returns (probed: Option<seq<seq<string>>>)
    requires |listings| == |servers|
    ensures probed.Some? <==> AcceptedProbe(kinds, servers, listings)
    ensures probed.Some? ==>
              && |probed.value| == |servers|
              && forall k | 0 <= k < |servers| ::
                   listings[k].Some? && probed.value[k] == Sort(FullNames(servers[k], listings[k].value))
  {
    for k := 0 to |kinds|
      invariant forall j | 0 <= j < k :: CleanTool(Normalize(kinds[j]))
    {
      if !CleanTool(Normalize(kinds[k])) {
        return None;
      }
    }
    for k := 0 to |servers|
      invariant forall j | 0 <= j < k :: CleanServer(Normalize(servers[j]))
    {
      if !CleanServer(Normalize(servers[k])) {
        return None;
      }
    }
    var all: seq<seq<string>> := [];
    for k := 0 to |servers|
      invariant |all| == k
      invariant forall j | 0 <= j < k :: listings[j].Some? && AcceptedTools(servers[j], listings[j].value)
                                         && all[j] == Sort(FullNames(servers[j], listings[j].value))
    {
      var names := ProbeServer(servers[k], listings[k]);
      if names == None {
        return None;
      }
      all := all + [names.value];
    }
    return Some(all);
  }

  /** The framework's own tools: every policy kind and the finish signal. */
  function FrameworkTools(kinds: seq<string>): set<string> {
    set k | k in kinds + [FINISH_TASK] :: ToolName(FRAMEWORK, k)
  }

  lemma FrameworkIsClean()
    ensures CleanServer(Normalize(FRAMEWORK)) && CleanTool(Normalize(FINISH_TASK))
    ensures Normalize(FRAMEWORK) == FRAMEWORK
  {
    var f, t := Normalize(FRAMEWORK), Normalize(FINISH_TASK);
    assert f == FRAMEWORK && t == FINISH_TASK;
    assert forall i | 0 <= i < |f| :: f[i] != '_';
    assert forall i | 0 <= i < |t| && i != 6 :: t[i] != '_';
  }

  /**
   * Over accepted declarations every pair of a declared server and a listed tool has a name of its own,
   * and none has the name of a framework tool.
   */
  lemma DeclaredToolsAreDistinct(kinds: seq<string>, servers: seq<string>, listings: seq<Listing>,
                                 a: nat, i: nat, b: nat, j: nat)
    requires AcceptedNames(servers) && AcceptedProbe(kinds, servers, listings)
    requires a < |servers| && b < |servers| && i < |listings[a].value| && j < |listings[b].value|
    ensures ToolName(servers[a], listings[a].value[i]) == ToolName(servers[b], listings[b].value[j])
            ==> a == b && i == j
    ensures ToolName(servers[a], listings[a].value[i]) !in FrameworkTools(kinds)
  {
    var server, tool := servers[a], listings[a].value[i];
    if ToolName(server, tool) == ToolName(servers[b], listings[b].value[j]) {
      ToolNamesParseOneWay(server, tool, servers[b], listings[b].value[j]);
      DashlessIsNormal(server);
      DashlessIsNormal(servers[b]);
    }
    if ToolName(server, tool) in FrameworkTools(kinds) {
      var k :| k in kinds + [FINISH_TASK] && ToolName(FRAMEWORK, k) == ToolName(server, tool);
      FrameworkIsClean();
      ToolNamesParseOneWay(server, tool, FRAMEWORK, k);
      OnlyFrameworkIsFramework(server);
    }
  }

  /** A declared server was granted the tool under this name. */
  ghost predicate Granted(servers: seq<string>, listings: seq<Listing>, name: string)
    requires |listings| == |servers| && forall k | 0 <= k < |servers| :: listings[k].Some?
  {
    exists k | 0 <= k < |servers| :: name in Sort(FullNames(servers[k], listings[k].value))
  }

  /** The MCP names on the allowlist. */
  ghost predicate Allowed(kinds: seq<string>, servers: seq<string>, listings: seq<Listing>, name: string)
    requires |listings| == |servers| && forall k | 0 <= k < |servers| :: listings[k].Some?
  {
    name in FrameworkTools(kinds) || Granted(servers, listings, name)
  }

  /** Server and tool are spelled like a declared server and a tool it lists. */
  ghost predicate SpelledAsGranted(servers: seq<string>, listings: seq<Listing>, server: string, tool: string)
    requires |listings| == |servers| && forall k | 0 <= k < |servers| :: listings[k].Some?
  {
    exists a, i | 0 <= a < |servers| && 0 <= i < |listings[a].value| ::
      Normalize(servers[a]) == Normalize(server) && Normalize(listings[a].value[i]) == Normalize(tool)
  }

  lemma GrantedIff(kinds: seq<string>, servers: seq<string>, listings: seq<Listing>, server: string, tool: string)
    requires AcceptedProbe(kinds, servers, listings)
    ensures Granted(servers, listings, ToolName(server, tool)) <==> SpelledAsGranted(servers, listings, server, tool)
  {
    var name := ToolName(server, tool);
    if Granted(servers, listings, name) {
      var a :| 0 <= a < |servers| && name in Sort(FullNames(servers[a], listings[a].value));
      SortKeepsMembers(FullNames(servers[a], listings[a].value), name);
      var i :| 0 <= i < |listings[a].value| && FullNames(servers[a], listings[a].value)[i] == name;
      ToolNamesParseOneWay(servers[a], listings[a].value[i], server, tool);
    }
    if SpelledAsGranted(servers, listings, server, tool) {
      var a, i :| 0 <= a < |servers| && 0 <= i < |listings[a].value|
                  && Normalize(servers[a]) == Normalize(server) && Normalize(listings[a].value[i]) == Normalize(tool);
      assert FullNames(servers[a], listings[a].value)[i] == name;
      SortKeepsMembers(FullNames(servers[a], listings[a].value), name);
    }
  }

  lemma FrameworkIff(kinds: seq<string>, server: string, tool: string)
    requires forall k | 0 <= k < |kinds| :: CleanTool(Normalize(kinds[k]))
    ensures ToolName(server, tool) in FrameworkTools(kinds) <==>
              Normalize(server) == FRAMEWORK && exists k | k in kinds + [FINISH_TASK] :: Normalize(k) == Normalize(tool)
  {
    FrameworkIsClean();
    if ToolName(server, tool) in FrameworkTools(kinds) {
      var k :| k in kinds + [FINISH_TASK] && ToolName(FRAMEWORK, k) == ToolName(server, tool);
      CleanKind(kinds, k);
      ToolNamesParseOneWay(FRAMEWORK, k, server, tool);
    }
  }

  /**
   * Whatever other servers are around: a tool gets an allowed name only from a server spelled exactly
   * like the framework's or a declared one, and then only if that server was granted that tool.
   */
  lemma AllowlistAdmitsNoStranger(kinds: seq<string>, servers: seq<string>, listings: seq<Listing>,
                                  server: string, tool: string)
    requires AcceptedNames(servers) && AcceptedProbe(kinds, servers, listings)
    ensures Allowed(kinds, servers, listings, ToolName(server, tool)) <==>
              || (Normalize(server) == FRAMEWORK
                  && exists k | k in kinds + [FINISH_TASK] :: Normalize(k) == Normalize(tool))
              || SpelledAsGranted(servers, listings, server, tool)
  {
    FrameworkIff(kinds, server, tool);
    GrantedIff(kinds, servers, listings, server, tool);
  }

  lemma CleanKind(kinds: seq<string>, kind: string)
    requires (forall k | 0 <= k < |kinds| :: CleanTool(Normalize(kinds[k]))) && kind in kinds + [FINISH_TASK]
    ensures CleanTool(Normalize(kind))
  {
    FrameworkIsClean();
    var all := kinds + [FINISH_TASK];
    var k :| 0 <= k < |all| && all[k] == kind;
    assert k < |kinds| ==> kinds[k] == kind;
  }
}
