/** The deprecation-usage checker: given an immutable id-set (the corpus of scripts,
    playbooks and test-playbooks with the names they refer to), decide whether a deprecated
    integration command, script or playbook is still used by a non-deprecated consumer, and
    produce the diagnostic text the validators print. */
module Deprecation {
  import opened Strings
  import opened DiagnosticTexts

  /** The literal a `tests` list holds when an entity is deliberately untested; it never
      names a test-playbook. */
  const NoTests: string := "No Tests"

  /** A script record of the id-set; a missing `deprecated` key reads as false. */
  datatype Script = Script(name: string, filePath: string, deprecated: bool, dependsOn: seq<string>)

  /** A playbook or test-playbook record of the id-set. */
  datatype Playbook = Playbook(
    name: string,
    filePath: string,
    deprecated: bool,
    implementingScripts: seq<string>,
    implementingPlaybooks: seq<string>,
    commandToIntegration: map<string, string>)

  /** The id-set, flattened: each kind is a sequence of records in file order
      (test-playbooks come from the key "TestPlaybooks"). */
  datatype IdSet = IdSet(scripts: seq<Script>, playbooks: seq<Playbook>, testPlaybooks: seq<Playbook>)

  /** An integration command as declared in the integration YAML. */
  datatype Command = Command(name: string, deprecated: bool)

  /** The integration under validation. */
  datatype Integration = Integration(name: string, deprecated: bool, commands: seq<Command>, tests: seq<string>)

  /** The script or playbook under validation. */
  datatype Entity = Entity(name: string, deprecated: bool, tests: seq<string>)

  /** Which field of a playbook record refers to the identifier looked up. */
  datatype Relation = UsesCommand | UsesScript | UsesPlaybook

  /** Playbooks are consulted unconditionally; test-playbooks only when the validated
      entity lists them in its `tests`. */
  datatype Gate = Ungated | ListedIn(tests: seq<string>)

  predicate References(pb: Playbook, rel: Relation, id: string)
  {
    match rel
    case UsesCommand => id in pb.commandToIntegration
    case UsesScript => id in pb.implementingScripts
    case UsesPlaybook => id in pb.implementingPlaybooks
  }

  /** `name` is one of the test-playbooks named in `tests`; "No Tests" names none. */
  predicate IsListedTest(tests: seq<string>, name: string)
  {
    name != NoTests && name in tests
  }

  predicate Admits(gate: Gate, name: string)
  {
    match gate
    case Ungated => true
    case ListedIn(tests) => IsListedTest(tests, name)
  }

  /** A non-deprecated script whose `depends_on` names `id`. */
  predicate ActiveScriptUser(s: Script, id: string)
  {
    !s.deprecated && id in s.dependsOn
  }

  /** A non-deprecated (test-)playbook admitted by the gate that refers to `id`. */
  predicate ActivePlaybookUser(pb: Playbook, rel: Relation, id: string, gate: Gate)
  {
    !pb.deprecated && References(pb, rel, id) && Admits(gate, pb.name)
  }

  /** File paths of the active script users of `id`, in id-set order. */
  function ScriptUsers(scripts: seq<Script>, id: string): (paths: seq<string>)
    ensures |paths| <= |scripts|
  {
    if scripts == [] then []
    else (if ActiveScriptUser(scripts[0], id) then [scripts[0].filePath] else []) + ScriptUsers(scripts[1..], id)
  }

  /** File paths of the active (test-)playbook users of `id`, in id-set order. */
  function PlaybookUsers(pbs: seq<Playbook>, rel: Relation, id: string, gate: Gate): (paths: seq<string>)
    ensures |paths| <= |pbs|
  {
    if pbs == [] then []
    else
      (if ActivePlaybookUser(pbs[0], rel, id, gate) then [pbs[0].filePath] else [])
      + PlaybookUsers(pbs[1..], rel, id, gate)
  }

  /** Consumers of a command: test-playbooks, then scripts, then playbooks. */
  function CommandUsage(ids: IdSet, command: string, tests: seq<string>): seq<string>
  {
    PlaybookUsers(ids.testPlaybooks, UsesCommand, command, ListedIn(tests))
    + ScriptUsers(ids.scripts, command)
    + PlaybookUsers(ids.playbooks, UsesCommand, command, Ungated)
  }

  /** Consumers of a script: scripts, then test-playbooks, then playbooks. */
  function ScriptUsage(ids: IdSet, script: string, tests: seq<string>): seq<string>
  {
    ScriptUsers(ids.scripts, script)
    + PlaybookUsers(ids.testPlaybooks, UsesScript, script, ListedIn(tests))
    + PlaybookUsers(ids.playbooks, UsesScript, script, Ungated)
  }

  /** Consumers of a playbook: test-playbooks, then playbooks. */
  function PlaybookUsage(ids: IdSet, playbook: string, tests: seq<string>): seq<string>
  {
    PlaybookUsers(ids.testPlaybooks, UsesPlaybook, playbook, ListedIn(tests))
    + PlaybookUsers(ids.playbooks, UsesPlaybook, playbook, Ungated)
  }

  /** A command is deprecated when it is marked so or its integration is. */
  predicate EffectivelyDeprecated(integrationDeprecated: bool, c: Command)
  {
    integrationDeprecated || c.deprecated
  }

  /** The commands to report, in declaration order, each with its active consumers. */
  function FlaggedCommands(ids: IdSet, integrationDeprecated: bool, commands: seq<Command>, tests: seq<string>)
    : (flagged: seq<(string, seq<string>)>)
    ensures |flagged| <= |commands|
    ensures forall k :: 0 <= k < |flagged| ==>
              flagged[k].1 != [] && flagged[k].1 == CommandUsage(ids, flagged[k].0, tests)
  {
    if commands == [] then []
    else if !EffectivelyDeprecated(integrationDeprecated, commands[0]) then
      FlaggedCommands(ids, integrationDeprecated, commands[1..], tests)
    else
      var usage := CommandUsage(ids, commands[0].name, tests);
      (if usage != [] then [(commands[0].name, usage)] else [])
      + FlaggedCommands(ids, integrationDeprecated, commands[1..], tests)
  }

  // ---------------------------------------------------------------------------------------
  // Diagnostic text

  function IntegrationHeader(name: string): string
  {
    IntegrationCode + name + IntegrationTail
  }

  function CommandLine(command: string): string
  {
    command + CommandTail
  }

  function ScriptHeader(name: string): string
  {
    ScriptCode + name + ScriptTail
  }

  function PlaybookHeader(name: string): string
  {
    PlaybookCode + name + PlaybookTail
  }

  /** Lines of the integration report after its header: per command, its line, then the paths. */
  function CommandBlocks(flagged: seq<(string, seq<string>)>): seq<string>
  {
    if flagged == [] then []
    else [CommandLine(flagged[0].0)] + flagged[0].1 + CommandBlocks(flagged[1..])
  }

  function IntegrationDiagnostic(name: string, flagged: seq<(string, seq<string>)>): string
  {
    Join([IntegrationHeader(name)] + CommandBlocks(flagged), "\n")
  }

  function ScriptDiagnostic(name: string, paths: seq<string>): string
  {
    Join([ScriptHeader(name)] + paths, "\n")
  }

  function PlaybookDiagnostic(name: string, paths: seq<string>): string
  {
    Join([PlaybookHeader(name)] + paths, "\n")
  }

  // ---------------------------------------------------------------------------------------
  // The three checks: (passes, diagnostic printed; "" when nothing is printed)

  function IsIntegrationDeprecatedAndUsed(ids: IdSet, integration: Integration): (r: (bool, string))
    ensures r.0 <==> r.1 == ""
    ensures r.0 <==> FlaggedCommands(ids, integration.deprecated, integration.commands, integration.tests) == []
    ensures !r.0 ==> r.1 == IntegrationDiagnostic(integration.name,
                              FlaggedCommands(ids, integration.deprecated, integration.commands, integration.tests))
  {
    var flagged := FlaggedCommands(ids, integration.deprecated, integration.commands, integration.tests);
    if flagged == [] then (true, "") else (false, IntegrationDiagnostic(integration.name, flagged))
  }

  function IsScriptDeprecatedAndUsed(ids: IdSet, script: Entity): (r: (bool, string))
    ensures !script.deprecated ==> r == (true, "")
    ensures r.0 <==> r.1 == ""
    ensures !r.0 ==> r.1 == ScriptDiagnostic(script.name, ScriptUsage(ids, script.name, script.tests))
  {
    if !script.deprecated then (true, "")
    else
      var usage := ScriptUsage(ids, script.name, script.tests);
      if usage == [] then (true, "") else (false, ScriptDiagnostic(script.name, usage))
  }

  function IsPlaybookDeprecatedAndUsed(ids: IdSet, playbook: Entity): (r: (bool, string))
    ensures !playbook.deprecated ==> r == (true, "")
    ensures r.0 <==> r.1 == ""
    ensures !r.0 ==> r.1 == PlaybookDiagnostic(playbook.name, PlaybookUsage(ids, playbook.name, playbook.tests))
  {
    if !playbook.deprecated then (true, "")
    else
      var usage := PlaybookUsage(ids, playbook.name, playbook.tests);
      if usage == [] then (true, "") else (false, PlaybookDiagnostic(playbook.name, usage))
  }

  // ---------------------------------------------------------------------------------------
  // What the consumer lists hold

  /** A path is reported for `id` exactly when some active script user of `id` has it. */
  lemma {:induction false} ScriptUsersMembers(scripts: seq<Script>, id: string, p: string)
    ensures p in ScriptUsers(scripts, id) <==>
            exists i :: 0 <= i < |scripts| && ActiveScriptUser(scripts[i], id) && scripts[i].filePath == p
    decreases |scripts|
  {
    if scripts != [] {
      ScriptUsersMembers(scripts[1..], id, p);
      if exists i :: 0 <= i < |scripts| && ActiveScriptUser(scripts[i], id) && scripts[i].filePath == p {
        var i :| 0 <= i < |scripts| && ActiveScriptUser(scripts[i], id) && scripts[i].filePath == p;
        if i > 0 {
          assert scripts[1..][i - 1] == scripts[i];
        }
      }
      if exists j :: 0 <= j < |scripts[1..]| && ActiveScriptUser(scripts[1..][j], id) && scripts[1..][j].filePath == p {
        var j :| 0 <= j < |scripts[1..]| && ActiveScriptUser(scripts[1..][j], id) && scripts[1..][j].filePath == p;
        assert scripts[j + 1] == scripts[1..][j];
      }
    }
  }

  /** A path is reported for `id` exactly when some active, admitted (test-)playbook user has it. */
  lemma {:induction false} PlaybookUsersMembers(pbs: seq<Playbook>, rel: Relation, id: string, gate: Gate, p: string)
    ensures p in PlaybookUsers(pbs, rel, id, gate) <==>
            exists i :: 0 <= i < |pbs| && ActivePlaybookUser(pbs[i], rel, id, gate) && pbs[i].filePath == p
    decreases |pbs|
  {
    if pbs != [] {
      PlaybookUsersMembers(pbs[1..], rel, id, gate, p);
      if exists i :: 0 <= i < |pbs| && ActivePlaybookUser(pbs[i], rel, id, gate) && pbs[i].filePath == p {
        var i :| 0 <= i < |pbs| && ActivePlaybookUser(pbs[i], rel, id, gate) && pbs[i].filePath == p;
        if i > 0 {
          assert pbs[1..][i - 1] == pbs[i];
        }
      }
      if exists j :: 0 <= j < |pbs[1..]| && ActivePlaybookUser(pbs[1..][j], rel, id, gate) && pbs[1..][j].filePath == p {
        var j :| 0 <= j < |pbs[1..]| && ActivePlaybookUser(pbs[1..][j], rel, id, gate) && pbs[1..][j].filePath == p;
        assert pbs[j + 1] == pbs[1..][j];
      }
    }
  }

  /** No script user is reported exactly when no script is an active user. */
  lemma ScriptUsersEmpty(scripts: seq<Script>, id: string)
    ensures ScriptUsers(scripts, id) == [] <==> forall i :: 0 <= i < |scripts| ==> !ActiveScriptUser(scripts[i], id)
  {
    if ScriptUsers(scripts, id) != [] {
      ScriptUsersMembers(scripts, id, ScriptUsers(scripts, id)[0]);
    }
    if exists i :: 0 <= i < |scripts| && ActiveScriptUser(scripts[i], id) {
      var i :| 0 <= i < |scripts| && ActiveScriptUser(scripts[i], id);
      ScriptUsersMembers(scripts, id, scripts[i].filePath);
    }
  }

  /** No (test-)playbook user is reported exactly when none is an active, admitted user. */
  lemma PlaybookUsersEmpty(pbs: seq<Playbook>, rel: Relation, id: string, gate: Gate)
    ensures PlaybookUsers(pbs, rel, id, gate) == [] <==>
            forall i :: 0 <= i < |pbs| ==> !ActivePlaybookUser(pbs[i], rel, id, gate)
  {
    if PlaybookUsers(pbs, rel, id, gate) != [] {
      PlaybookUsersMembers(pbs, rel, id, gate, PlaybookUsers(pbs, rel, id, gate)[0]);
    }
    if exists i :: 0 <= i < |pbs| && ActivePlaybookUser(pbs[i], rel, id, gate) {
      var i :| 0 <= i < |pbs| && ActivePlaybookUser(pbs[i], rel, id, gate);
      PlaybookUsersMembers(pbs, rel, id, gate, pbs[i].filePath);
    }
  }

  /** Test-playbook users depend on `tests` only through the test-playbook names it lists;
      in particular adding or removing "No Tests" changes nothing. */
  lemma {:induction false} GateDependsOnListedNames(pbs: seq<Playbook>, rel: Relation, id: string, t1: seq<string>, t2: seq<string>)
    requires forall n :: IsListedTest(t1, n) <==> IsListedTest(t2, n)
    ensures PlaybookUsers(pbs, rel, id, ListedIn(t1)) == PlaybookUsers(pbs, rel, id, ListedIn(t2))
    decreases |pbs|
  {
    if pbs != [] {
      GateDependsOnListedNames(pbs[1..], rel, id, t1, t2);
      assert IsListedTest(t1, pbs[0].name) <==> IsListedTest(t2, pbs[0].name);
    }
  }

  /** A `tests` list holding only "No Tests" admits no test-playbook at all. */
  lemma {:induction false} NoTestsAdmitsNone(pbs: seq<Playbook>, rel: Relation, id: string)
    ensures PlaybookUsers(pbs, rel, id, ListedIn([NoTests])) == []
    decreases |pbs|
  {
    if pbs != [] {
      NoTestsAdmitsNone(pbs[1..], rel, id);
    }
  }

  // ---------------------------------------------------------------------------------------
  // Verdicts

  /** A script or playbook check passes exactly when the entity is not deprecated or it has
      no active consumer. */
  lemma ScriptVerdict(ids: IdSet, script: Entity)
    ensures IsScriptDeprecatedAndUsed(ids, script).0 <==>
            !script.deprecated
            || ((forall i :: 0 <= i < |ids.scripts| ==> !ActiveScriptUser(ids.scripts[i], script.name))
                && (forall i :: 0 <= i < |ids.testPlaybooks| ==>
                      !ActivePlaybookUser(ids.testPlaybooks[i], UsesScript, script.name, ListedIn(script.tests)))
                && (forall i :: 0 <= i < |ids.playbooks| ==>
                      !ActivePlaybookUser(ids.playbooks[i], UsesScript, script.name, Ungated)))
  {
    ScriptUsersEmpty(ids.scripts, script.name);
    PlaybookUsersEmpty(ids.testPlaybooks, UsesScript, script.name, ListedIn(script.tests));
    PlaybookUsersEmpty(ids.playbooks, UsesScript, script.name, Ungated);
  }

  lemma PlaybookVerdict(ids: IdSet, playbook: Entity)
    ensures IsPlaybookDeprecatedAndUsed(ids, playbook).0 <==>
            !playbook.deprecated
            || ((forall i :: 0 <= i < |ids.testPlaybooks| ==>
                   !ActivePlaybookUser(ids.testPlaybooks[i], UsesPlaybook, playbook.name, ListedIn(playbook.tests)))
                && (forall i :: 0 <= i < |ids.playbooks| ==>
                      !ActivePlaybookUser(ids.playbooks[i], UsesPlaybook, playbook.name, Ungated)))
  {
    PlaybookUsersEmpty(ids.testPlaybooks, UsesPlaybook, playbook.name, ListedIn(playbook.tests));
    PlaybookUsersEmpty(ids.playbooks, UsesPlaybook, playbook.name, Ungated);
  }

  /** A command is flagged exactly when it is effectively deprecated and has an active consumer. */
  predicate CommandViolates(ids: IdSet, integrationDeprecated: bool, c: Command, tests: seq<string>)
  {
    EffectivelyDeprecated(integrationDeprecated, c) && CommandUsage(ids, c.name, tests) != []
  }

  /** Nothing is flagged when neither the integration nor any command is deprecated. */
  lemma {:induction false} NoneFlaggedWhenNoneDeprecated(ids: IdSet, integrationDeprecated: bool, commands: seq<Command>, tests: seq<string>)
    requires !integrationDeprecated && forall i :: 0 <= i < |commands| ==> !commands[i].deprecated
    ensures FlaggedCommands(ids, integrationDeprecated, commands, tests) == []
    decreases |commands|
  {
    if commands != [] {
      NoneFlaggedWhenNoneDeprecated(ids, integrationDeprecated, commands[1..], tests);
    }
  }

  /** An integration that is not deprecated and declares no deprecated command always passes,
      whatever uses its commands. */
  lemma NonDeprecatedIntegrationPasses(ids: IdSet, integration: Integration)
    requires !integration.deprecated
    requires forall i :: 0 <= i < |integration.commands| ==> !integration.commands[i].deprecated
    ensures IsIntegrationDeprecatedAndUsed(ids, integration) == (true, "")
  {
    NoneFlaggedWhenNoneDeprecated(ids, integration.deprecated, integration.commands, integration.tests);
  }

  /** The flagged list of `[c] + rest`, given the consumers of `c` when it is effectively
      deprecated: `c` first when it is effectively deprecated and used, then the flagged
      commands of `rest`. */
  lemma FlaggedCons(ids: IdSet, integrationDeprecated: bool, c: Command, rest: seq<Command>, tests: seq<string>,
                    usage: seq<string>)
    requires EffectivelyDeprecated(integrationDeprecated, c) ==> CommandUsage(ids, c.name, tests) == usage
    ensures FlaggedCommands(ids, integrationDeprecated, [c] + rest, tests) ==
            (if EffectivelyDeprecated(integrationDeprecated, c) && usage != [] then [(c.name, usage)] else [])
            + FlaggedCommands(ids, integrationDeprecated, rest, tests)
  {
    assert ([c] + rest)[1..] == rest;
  }

  /** Every flagged command is a violating command of the integration. */
  lemma {:induction false} FlaggedAreViolating(ids: IdSet, integrationDeprecated: bool, commands: seq<Command>, tests: seq<string>, k: nat)
    requires k < |FlaggedCommands(ids, integrationDeprecated, commands, tests)|
    ensures exists i :: 0 <= i < |commands| && commands[i].name == FlaggedCommands(ids, integrationDeprecated, commands, tests)[k].0
                        && CommandViolates(ids, integrationDeprecated, commands[i], tests)
    decreases |commands|
  {
    var flagged := FlaggedCommands(ids, integrationDeprecated, commands, tests);
    var rest := FlaggedCommands(ids, integrationDeprecated, commands[1..], tests);
    var c := commands[0];
    FlaggedCons(ids, integrationDeprecated, c, commands[1..], tests, CommandUsage(ids, c.name, tests));
    assert [c] + commands[1..] == commands;
    if CommandViolates(ids, integrationDeprecated, c, tests) {
      assert flagged == [(c.name, CommandUsage(ids, c.name, tests))] + rest;
      if k == 0 {
        assert c.name == flagged[0].0;
      } else {
        assert flagged[k] == rest[k - 1];
        FlaggedAreViolating(ids, integrationDeprecated, commands[1..], tests, k - 1);
        var i :| 0 <= i < |commands[1..]| && commands[1..][i].name == rest[k - 1].0
                 && CommandViolates(ids, integrationDeprecated, commands[1..][i], tests);
        assert commands[i + 1] == commands[1..][i];
      }
    } else {
      assert flagged == rest;
      FlaggedAreViolating(ids, integrationDeprecated, commands[1..], tests, k);
      var i :| 0 <= i < |commands[1..]| && commands[1..][i].name == rest[k].0
               && CommandViolates(ids, integrationDeprecated, commands[1..][i], tests);
      assert commands[i + 1] == commands[1..][i];
    }
  }

  /** Every violating command of the integration is flagged. */
  lemma {:induction false} ViolatingAreFlagged(ids: IdSet, integrationDeprecated: bool, commands: seq<Command>, tests: seq<string>, i: nat)
    requires i < |commands| && CommandViolates(ids, integrationDeprecated, commands[i], tests)
    ensures exists k :: 0 <= k < |FlaggedCommands(ids, integrationDeprecated, commands, tests)|
                        && FlaggedCommands(ids, integrationDeprecated, commands, tests)[k].0 == commands[i].name
    decreases |commands|
  {
    var flagged := FlaggedCommands(ids, integrationDeprecated, commands, tests);
    var rest := FlaggedCommands(ids, integrationDeprecated, commands[1..], tests);
    var c := commands[0];
    FlaggedCons(ids, integrationDeprecated, c, commands[1..], tests, CommandUsage(ids, c.name, tests));
    assert [c] + commands[1..] == commands;
    if i == 0 {
      assert flagged[0].0 == c.name;
    } else {
      assert commands[1..][i - 1] == commands[i];
      ViolatingAreFlagged(ids, integrationDeprecated, commands[1..], tests, i - 1);
      var k :| 0 <= k < |rest| && rest[k].0 == commands[i].name;
      if CommandViolates(ids, integrationDeprecated, c, tests) {
        assert flagged == [(c.name, CommandUsage(ids, c.name, tests))] + rest;
        assert flagged[k + 1] == rest[k];
      } else {
        assert flagged == rest;
      }
    }
  }

  /** A flagged first command opens the report, and the report of the rest follows it. */
  lemma FlaggedHead(ids: IdSet, integrationDeprecated: bool, commands: seq<Command>, tests: seq<string>)
    requires commands != [] && CommandViolates(ids, integrationDeprecated, commands[0], tests)
    ensures |FlaggedCommands(ids, integrationDeprecated, commands, tests)|
            == |FlaggedCommands(ids, integrationDeprecated, commands[1..], tests)| + 1
    ensures FlaggedCommands(ids, integrationDeprecated, commands, tests)[0].0 == commands[0].name
  {
  }

  lemma FlaggedAfterHead(ids: IdSet, integrationDeprecated: bool, commands: seq<Command>, tests: seq<string>, j: nat)
    requires commands != [] && CommandViolates(ids, integrationDeprecated, commands[0], tests)
    requires j < |FlaggedCommands(ids, integrationDeprecated, commands[1..], tests)|
    ensures j + 1 < |FlaggedCommands(ids, integrationDeprecated, commands, tests)|
    ensures FlaggedCommands(ids, integrationDeprecated, commands, tests)[j + 1]
            == FlaggedCommands(ids, integrationDeprecated, commands[1..], tests)[j]
  {
  }

  /** A first command that is not flagged leaves no trace in the report. */
  lemma FlaggedSkipHead(ids: IdSet, integrationDeprecated: bool, commands: seq<Command>, tests: seq<string>)
    requires commands != [] && !CommandViolates(ids, integrationDeprecated, commands[0], tests)
    ensures FlaggedCommands(ids, integrationDeprecated, commands, tests)
            == FlaggedCommands(ids, integrationDeprecated, commands[1..], tests)
  {
  }

  /** Positions found in the report of the later commands carry over, one place further
      on, to the report of all of them when the first command is not flagged. */
  lemma SkipShift(ids: IdSet, integrationDeprecated: bool, commands: seq<Command>, tests: seq<string>,
                  k: nat, j1: nat, j2: nat)
    requires commands != [] && !CommandViolates(ids, integrationDeprecated, commands[0], tests)
    requires k + 1 < |FlaggedCommands(ids, integrationDeprecated, commands[1..], tests)|
    requires j1 < j2 < |commands| - 1
    requires commands[1..][j1].name == FlaggedCommands(ids, integrationDeprecated, commands[1..], tests)[k].0
    requires commands[1..][j2].name == FlaggedCommands(ids, integrationDeprecated, commands[1..], tests)[k + 1].0
    ensures k + 1 < |FlaggedCommands(ids, integrationDeprecated, commands, tests)|
    ensures commands[j1 + 1].name == FlaggedCommands(ids, integrationDeprecated, commands, tests)[k].0
    ensures commands[j2 + 1].name == FlaggedCommands(ids, integrationDeprecated, commands, tests)[k + 1].0
  {
    FlaggedSkipHead(ids, integrationDeprecated, commands, tests);
    assert commands[j1 + 1] == commands[1..][j1] && commands[j2 + 1] == commands[1..][j2];
  }

  /** The same when the first command is flagged: the entries move one place further on. */
  lemma HeadShift(ids: IdSet, integrationDeprecated: bool, commands: seq<Command>, tests: seq<string>,
                  k: nat, j1: nat, j2: nat)
    requires commands != [] && CommandViolates(ids, integrationDeprecated, commands[0], tests)
    requires k + 1 < |FlaggedCommands(ids, integrationDeprecated, commands[1..], tests)|
    requires j1 < j2 < |commands| - 1
    requires commands[1..][j1].name == FlaggedCommands(ids, integrationDeprecated, commands[1..], tests)[k].0
    requires commands[1..][j2].name == FlaggedCommands(ids, integrationDeprecated, commands[1..], tests)[k + 1].0
    ensures k + 2 < |FlaggedCommands(ids, integrationDeprecated, commands, tests)|
    ensures commands[j1 + 1].name == FlaggedCommands(ids, integrationDeprecated, commands, tests)[k + 1].0
    ensures commands[j2 + 1].name == FlaggedCommands(ids, integrationDeprecated, commands, tests)[k + 2].0
  {
    FlaggedAfterHead(ids, integrationDeprecated, commands, tests, k);
    FlaggedAfterHead(ids, integrationDeprecated, commands, tests, k + 1);
    assert commands[j1 + 1] == commands[1..][j1] && commands[j2 + 1] == commands[1..][j2];
  }

  /** When the first command is flagged, the next entry of the report comes from a later one. */
  lemma HeadThenNext(ids: IdSet, integrationDeprecated: bool, commands: seq<Command>, tests: seq<string>)
    returns (i: nat)
    requires commands != [] && CommandViolates(ids, integrationDeprecated, commands[0], tests)
    requires 1 < |FlaggedCommands(ids, integrationDeprecated, commands, tests)|
    ensures 0 < i < |commands|
    ensures commands[0].name == FlaggedCommands(ids, integrationDeprecated, commands, tests)[0].0
    ensures commands[i].name == FlaggedCommands(ids, integrationDeprecated, commands, tests)[1].0
  {
    var rest := FlaggedCommands(ids, integrationDeprecated, commands[1..], tests);
    FlaggedHead(ids, integrationDeprecated, commands, tests);
    FlaggedAfterHead(ids, integrationDeprecated, commands, tests, 0);
    FlaggedAreViolating(ids, integrationDeprecated, commands[1..], tests, 0);
    var j :| 0 <= j < |commands[1..]| && commands[1..][j].name == rest[0].0
             && CommandViolates(ids, integrationDeprecated, commands[1..][j], tests);
    assert commands[j + 1] == commands[1..][j];
    i := j + 1;
  }

  /** The positions, in the declaration, of the commands behind two neighbouring entries of
      the report. */
  lemma {:induction false} FlaggedPositions(ids: IdSet, integrationDeprecated: bool, commands: seq<Command>,
                                            tests: seq<string>, k: nat)
    returns (i1: nat, i2: nat)
    requires k + 1 < |FlaggedCommands(ids, integrationDeprecated, commands, tests)|
    ensures i1 < i2 < |commands|
    ensures commands[i1].name == FlaggedCommands(ids, integrationDeprecated, commands, tests)[k].0
    ensures commands[i2].name == FlaggedCommands(ids, integrationDeprecated, commands, tests)[k + 1].0
    decreases |commands|, 1
  {
    if !CommandViolates(ids, integrationDeprecated, commands[0], tests) {
      i1, i2 := SkippedHeadPositions(ids, integrationDeprecated, commands, tests, k);
    } else if k == 0 {
      i2 := HeadThenNext(ids, integrationDeprecated, commands, tests);
      i1 := 0;
    } else {
      i1, i2 := FlaggedHeadPositions(ids, integrationDeprecated, commands, tests, k);
    }
  }

  /** `FlaggedPositions` when the first command is not flagged. */
  lemma {:induction false} SkippedHeadPositions(ids: IdSet, integrationDeprecated: bool, commands: seq<Command>,
                                                tests: seq<string>, k: nat)
    returns (i1: nat, i2: nat)
    requires commands != [] && !CommandViolates(ids, integrationDeprecated, commands[0], tests)
    requires k + 1 < |FlaggedCommands(ids, integrationDeprecated, commands, tests)|
    ensures i1 < i2 < |commands|
    ensures commands[i1].name == FlaggedCommands(ids, integrationDeprecated, commands, tests)[k].0
    ensures commands[i2].name == FlaggedCommands(ids, integrationDeprecated, commands, tests)[k + 1].0
    decreases |commands|, 0
  {
    FlaggedSkipHead(ids, integrationDeprecated, commands, tests);
    var j1, j2 := FlaggedPositions(ids, integrationDeprecated, commands[1..], tests, k);
    SkipShift(ids, integrationDeprecated, commands, tests, k, j1, j2);
    i1, i2 := j1 + 1, j2 + 1;
  }

  /** `FlaggedPositions` when the first command is flagged and the pair starts further on. */
  lemma {:induction false} FlaggedHeadPositions(ids: IdSet, integrationDeprecated: bool, commands: seq<Command>,
                                                tests: seq<string>, k: nat)
    returns (i1: nat, i2: nat)
    requires commands != [] && CommandViolates(ids, integrationDeprecated, commands[0], tests)
    requires 0 < k && k + 1 < |FlaggedCommands(ids, integrationDeprecated, commands, tests)|
    ensures i1 < i2 < |commands|
    ensures commands[i1].name == FlaggedCommands(ids, integrationDeprecated, commands, tests)[k].0
    ensures commands[i2].name == FlaggedCommands(ids, integrationDeprecated, commands, tests)[k + 1].0
    decreases |commands|, 0
  {
    FlaggedHead(ids, integrationDeprecated, commands, tests);
    var j1, j2 := FlaggedPositions(ids, integrationDeprecated, commands[1..], tests, k - 1);
    HeadShift(ids, integrationDeprecated, commands, tests, k - 1, j1, j2);
    i1, i2 := j1 + 1, j2 + 1;
  }

  /** The report keeps declaration order: of two neighbouring entries, the first comes from a
      command declared before the command of the second. */
  lemma FlaggedInDeclarationOrder(ids: IdSet, integrationDeprecated: bool, commands: seq<Command>,
                                  tests: seq<string>, k: nat)
    requires k + 1 < |FlaggedCommands(ids, integrationDeprecated, commands, tests)|
    ensures exists i1, i2 :: 0 <= i1 < i2 < |commands|
                             && commands[i1].name == FlaggedCommands(ids, integrationDeprecated, commands, tests)[k].0
                             && commands[i2].name == FlaggedCommands(ids, integrationDeprecated, commands, tests)[k + 1].0
  {
    var i1, i2 := FlaggedPositions(ids, integrationDeprecated, commands, tests, k);
  }

  /** The integration check fails exactly when at least one command is effectively deprecated
      and still has an active consumer. */
  lemma IntegrationVerdict(ids: IdSet, integration: Integration)
    ensures !IsIntegrationDeprecatedAndUsed(ids, integration).0 <==>
            exists i :: 0 <= i < |integration.commands|
                        && CommandViolates(ids, integration.deprecated, integration.commands[i], integration.tests)
  {
    var flagged := FlaggedCommands(ids, integration.deprecated, integration.commands, integration.tests);
    if flagged != [] {
      FlaggedAreViolating(ids, integration.deprecated, integration.commands, integration.tests, 0);
    }
    if exists i :: 0 <= i < |integration.commands|
                   && CommandViolates(ids, integration.deprecated, integration.commands[i], integration.tests) {
      var i :| 0 <= i < |integration.commands|
               && CommandViolates(ids, integration.deprecated, integration.commands[i], integration.tests);
      ViolatingAreFlagged(ids, integration.deprecated, integration.commands, integration.tests, i);
    }
  }

  /** A command not itself marked deprecated inherits deprecation from its integration: when
      an active script depends on it, the integration check fails and names it. */
  lemma InheritedDeprecationIsReported(ids: IdSet, integration: Integration, i: nat, j: nat)
    requires integration.deprecated && i < |integration.commands| && j < |ids.scripts|
    requires ActiveScriptUser(ids.scripts[j], integration.commands[i].name)
    ensures !IsIntegrationDeprecatedAndUsed(ids, integration).0
    ensures exists k :: 0 <= k < |FlaggedCommands(ids, integration.deprecated, integration.commands, integration.tests)|
                        && FlaggedCommands(ids, integration.deprecated, integration.commands, integration.tests)[k].0
                           == integration.commands[i].name
  {
    var c := integration.commands[i];
    ScriptUsersEmpty(ids.scripts, c.name);
    assert CommandUsage(ids, c.name, integration.tests) != [];
    assert CommandViolates(ids, integration.deprecated, c, integration.tests);
    IntegrationVerdict(ids, integration);
    ViolatingAreFlagged(ids, integration.deprecated, integration.commands, integration.tests, i);
  }

  /** An active test-playbook that the deprecated script lists in `tests` and that implements
      it makes the script check fail. */
  lemma ListedActiveTestFailsScript(ids: IdSet, script: Entity, k: nat)
    requires script.deprecated && k < |ids.testPlaybooks|
    requires !ids.testPlaybooks[k].deprecated && script.name in ids.testPlaybooks[k].implementingScripts
    requires IsListedTest(script.tests, ids.testPlaybooks[k].name)
    ensures !IsScriptDeprecatedAndUsed(ids, script).0
  {
    ScriptVerdict(ids, script);
    assert ActivePlaybookUser(ids.testPlaybooks[k], UsesScript, script.name, ListedIn(script.tests));
  }

  /** The same for a playbook and a test-playbook that lists it in `implementing_playbooks`. */
  lemma ListedActiveTestFailsPlaybook(ids: IdSet, playbook: Entity, k: nat)
    requires playbook.deprecated && k < |ids.testPlaybooks|
    requires !ids.testPlaybooks[k].deprecated && playbook.name in ids.testPlaybooks[k].implementingPlaybooks
    requires IsListedTest(playbook.tests, ids.testPlaybooks[k].name)
    ensures !IsPlaybookDeprecatedAndUsed(ids, playbook).0
  {
    PlaybookVerdict(ids, playbook);
    assert ActivePlaybookUser(ids.testPlaybooks[k], UsesPlaybook, playbook.name, ListedIn(playbook.tests));
  }

  /** Appending "No Tests" to an entity's `tests` changes neither verdict nor diagnostic. */
  lemma NoTestsChangesNothing(ids: IdSet, e: Entity)
    ensures IsScriptDeprecatedAndUsed(ids, e.(tests := e.tests + [NoTests])) == IsScriptDeprecatedAndUsed(ids, e)
    ensures IsPlaybookDeprecatedAndUsed(ids, e.(tests := e.tests + [NoTests])) == IsPlaybookDeprecatedAndUsed(ids, e)
  {
    var t := e.tests + [NoTests];
    forall n ensures IsListedTest(t, n) <==> IsListedTest(e.tests, n) {
      if n != NoTests {
        assert n in t <==> n in e.tests;
      }
    }
    GateDependsOnListedNames(ids.testPlaybooks, UsesScript, e.name, t, e.tests);
    GateDependsOnListedNames(ids.testPlaybooks, UsesPlaybook, e.name, t, e.tests);
  }

  // ---------------------------------------------------------------------------------------
  // The diagnostics read back

  /** The fixed parts of the diagnostic lines hold no newline. */
  lemma FixedTextsHaveNoNewline(name: string)
    requires '\n' !in name
    ensures '\n' !in IntegrationHeader(name) && '\n' !in CommandLine(name)
    ensures '\n' !in ScriptHeader(name) && '\n' !in PlaybookHeader(name)
  {
    IntegrationWordingClean();
    CommandWordingClean();
    ScriptWordingClean();
    PlaybookWordingClean();
  }

  /** The script diagnostic splits on newlines into its header and the consumer paths. */
  lemma ScriptDiagnosticLines(name: string, paths: seq<string>)
    requires '\n' !in name && forall i :: 0 <= i < |paths| ==> '\n' !in paths[i]
    ensures SplitOn(ScriptDiagnostic(name, paths), "\n") == [ScriptHeader(name)] + paths
  {
    var lines := [ScriptHeader(name)] + paths;
    FixedTextsHaveNoNewline(name);
    assert forall i :: 0 <= i < |lines| ==> '\n' !in lines[i] by {
      forall i | 0 <= i < |lines| ensures '\n' !in lines[i] {
        if i > 0 { assert lines[i] == paths[i - 1]; }
      }
    }
    SplitJoinChar(lines, '\n');
  }

  lemma PlaybookDiagnosticLines(name: string, paths: seq<string>)
    requires '\n' !in name && forall i :: 0 <= i < |paths| ==> '\n' !in paths[i]
    ensures SplitOn(PlaybookDiagnostic(name, paths), "\n") == [PlaybookHeader(name)] + paths
  {
    var lines := [PlaybookHeader(name)] + paths;
    FixedTextsHaveNoNewline(name);
    assert forall i :: 0 <= i < |lines| ==> '\n' !in lines[i] by {
      forall i | 0 <= i < |lines| ensures '\n' !in lines[i] {
        if i > 0 { assert lines[i] == paths[i - 1]; }
      }
    }
    SplitJoinChar(lines, '\n');
  }

  /** No line of the command blocks holds a newline when no name or path does. */
  lemma {:induction false} CommandBlocksClean(flagged: seq<(string, seq<string>)>)
    requires forall k :: 0 <= k < |flagged| ==>
               '\n' !in flagged[k].0 && forall i :: 0 <= i < |flagged[k].1| ==> '\n' !in flagged[k].1[i]
    ensures forall i :: 0 <= i < |CommandBlocks(flagged)| ==> '\n' !in CommandBlocks(flagged)[i]
    decreases |flagged|
  {
    if flagged != [] {
      CommandBlocksClean(flagged[1..]);
      var block := [CommandLine(flagged[0].0)] + flagged[0].1;
      FixedTextsHaveNoNewline(flagged[0].0);
      forall i | 0 <= i < |CommandBlocks(flagged)| ensures '\n' !in CommandBlocks(flagged)[i] {
        if i == 0 {
        } else if i < |block| {
          assert CommandBlocks(flagged)[i] == flagged[0].1[i - 1];
        } else {
          assert CommandBlocks(flagged)[i] == CommandBlocks(flagged[1..])[i - |block|];
        }
      }
    }
  }

  /** The integration diagnostic splits on newlines into its header, then for each flagged
      command its line followed by its consumer paths. */
  lemma IntegrationDiagnosticLines(name: string, flagged: seq<(string, seq<string>)>)
    requires '\n' !in name
    requires forall k :: 0 <= k < |flagged| ==>
               '\n' !in flagged[k].0 && forall i :: 0 <= i < |flagged[k].1| ==> '\n' !in flagged[k].1[i]
    ensures SplitOn(IntegrationDiagnostic(name, flagged), "\n") == [IntegrationHeader(name)] + CommandBlocks(flagged)
  {
    var lines := [IntegrationHeader(name)] + CommandBlocks(flagged);
    FixedTextsHaveNoNewline(name);
    CommandBlocksClean(flagged);
    assert forall i :: 0 <= i < |lines| ==> '\n' !in lines[i] by {
      forall i | 0 <= i < |lines| ensures '\n' !in lines[i] {
        if i > 0 { assert lines[i] == CommandBlocks(flagged)[i - 1]; }
      }
    }
    SplitJoinChar(lines, '\n');
  }
}
