/** The id-set the deprecation tests validate against, and each parametrized expectation of
    those tests stated as a lemma about the checker. */
module DeprecationFixture {
  import opened Deprecation
  import opened DiagnosticTexts
  import Strings

  /** `script_1` has no comma between "script_format_case_1" and "ifc1_command3" in its
      `depends_on`, so the two literals form a single string. Records without a
      `deprecated` key are not deprecated. */
  const MockedIdSet: IdSet := IdSet(
    [ Script("script_1", "script_1.yml", true,
             ["ic3_command1", "ic5_command1", "ic6_command3", "script_case_4", "script_case_7",
              "script_format_case_1ifc1_command3", "ifc1_command2"]),
      Script("script_2", "script_2.yml", false,
             ["ic1_command1", "ic5_command2", "ic6_command1", "ic6_command3", "script_case_3",
              "script_format_case_1", "ifc1_command3", "ifc1_command2"]) ],
    [ Playbook("playbook_1", "playbook_1.yml", true,
               ["IsIntegrationAvailable"],
               ["playbook_case_4", "playbook_case_3"],
               map["ic3_command1" := "integration_case_3", "ic6_command2" := "integration_case_6",
                   "ifc1_command1" := "integration_format_case_1", "ifc1_command3" := "integration_format_case_1"]),
      Playbook("playbook_2", "playbook_2.yml", false,
               ["script_case_2", "script_case_7", "script_format_case_1"],
               ["playbook_case_2", "playbook_case_3", "playbook_format_case_1"],
               map["ic2_command1" := "integration_case_2", "ic5_command2" := "integration_case_5",
                   "ic6_command1" := "integration_case_6", "ifc1_command1" := "integration_format_case_1",
                   "ifc1_command3" := "integration_format_case_1"]) ],
    [ Playbook("testplaybook_1", "testplaybook_1.yml", true,
               ["script_case_5"],
               ["playbook_case_5"],
               map["ic7_command1" := "integration_case_7", "ic7_command2" := "integration_case_7",
                   "ifc1_command1" := "integration_format_case_1", "ifc1_command2" := "integration_format_case_1",
                   "ifc1_command3" := "integration_format_case_1"]),
      Playbook("testplaybook_2", "testplaybook_2.yml", false,
               ["script_case_6", "script_format_case_1"],
               ["playbook_case_6", "playbook_format_case_1"],
               map["ic7_command1" := "integration_case_7", "ifc1_command1" := "integration_format_case_1",
                   "ifc1_command2" := "integration_format_case_1", "ifc1_command3" := "integration_format_case_1"]) ])

  /** Consumer lists over the two records of each kind, spelled out. */
  lemma ScriptUsersOfTwo(a: Script, b: Script, id: string)
    ensures ScriptUsers([a, b], id) ==
            (if ActiveScriptUser(a, id) then [a.filePath] else [])
            + (if ActiveScriptUser(b, id) then [b.filePath] else [])
  {
    assert [a, b][1..] == [b];
    assert [b][1..] == [];
  }

  lemma PlaybookUsersOfTwo(a: Playbook, b: Playbook, rel: Relation, id: string, gate: Gate)
    ensures PlaybookUsers([a, b], rel, id, gate) ==
            (if ActivePlaybookUser(a, rel, id, gate) then [a.filePath] else [])
            + (if ActivePlaybookUser(b, rel, id, gate) then [b.filePath] else [])
  {
    assert [a, b][1..] == [b];
    assert [b][1..] == [];
  }

  // The consumers of each deprecated name the tables look up, one kind of record at a time.

  lemma Ic1Command1InScripts()
    ensures ScriptUsers(MockedIdSet.scripts, "ic1_command1") == ["script_2.yml"]
  {
    ScriptUsersOfTwo(MockedIdSet.scripts[0], MockedIdSet.scripts[1], "ic1_command1");
  }

  lemma Ic1Command1InTestPlaybooks()
    ensures PlaybookUsers(MockedIdSet.testPlaybooks, UsesCommand, "ic1_command1", ListedIn([])) == []
  {
    PlaybookUsersOfTwo(MockedIdSet.testPlaybooks[0], MockedIdSet.testPlaybooks[1], UsesCommand, "ic1_command1", ListedIn([]));
  }

  lemma Ic1Command1InPlaybooks()
    ensures PlaybookUsers(MockedIdSet.playbooks, UsesCommand, "ic1_command1", Ungated) == []
  {
    PlaybookUsersOfTwo(MockedIdSet.playbooks[0], MockedIdSet.playbooks[1], UsesCommand, "ic1_command1", Ungated);
  }

  lemma Ic1Command1Usage()
    ensures CommandUsage(MockedIdSet, "ic1_command1", []) == ["script_2.yml"]
  {
    Ic1Command1InScripts();
    Ic1Command1InTestPlaybooks();
    Ic1Command1InPlaybooks();
  }

  lemma Ic2Command1InScripts()
    ensures ScriptUsers(MockedIdSet.scripts, "ic2_command1") == []
  {
    ScriptUsersOfTwo(MockedIdSet.scripts[0], MockedIdSet.scripts[1], "ic2_command1");
  }

  lemma Ic2Command1InTestPlaybooks()
    ensures PlaybookUsers(MockedIdSet.testPlaybooks, UsesCommand, "ic2_command1", ListedIn([])) == []
  {
    PlaybookUsersOfTwo(MockedIdSet.testPlaybooks[0], MockedIdSet.testPlaybooks[1], UsesCommand, "ic2_command1", ListedIn([]));
  }

  lemma Ic2Command1InPlaybooks()
    ensures PlaybookUsers(MockedIdSet.playbooks, UsesCommand, "ic2_command1", Ungated) == ["playbook_2.yml"]
  {
    PlaybookUsersOfTwo(MockedIdSet.playbooks[0], MockedIdSet.playbooks[1], UsesCommand, "ic2_command1", Ungated);
  }

  lemma Ic2Command1Usage()
    ensures CommandUsage(MockedIdSet, "ic2_command1", []) == ["playbook_2.yml"]
  {
    Ic2Command1InScripts();
    Ic2Command1InTestPlaybooks();
    Ic2Command1InPlaybooks();
  }

  lemma Ic3Command1InScripts()
    ensures ScriptUsers(MockedIdSet.scripts, "ic3_command1") == []
  {
    ScriptUsersOfTwo(MockedIdSet.scripts[0], MockedIdSet.scripts[1], "ic3_command1");
  }

  lemma Ic3Command1InTestPlaybooks()
    ensures PlaybookUsers(MockedIdSet.testPlaybooks, UsesCommand, "ic3_command1", ListedIn([])) == []
  {
    PlaybookUsersOfTwo(MockedIdSet.testPlaybooks[0], MockedIdSet.testPlaybooks[1], UsesCommand, "ic3_command1", ListedIn([]));
  }

  lemma Ic3Command1InPlaybooks()
    ensures PlaybookUsers(MockedIdSet.playbooks, UsesCommand, "ic3_command1", Ungated) == []
  {
    PlaybookUsersOfTwo(MockedIdSet.playbooks[0], MockedIdSet.playbooks[1], UsesCommand, "ic3_command1", Ungated);
  }

  lemma Ic3Command1Usage()
    ensures CommandUsage(MockedIdSet, "ic3_command1", []) == []
  {
    Ic3Command1InScripts();
    Ic3Command1InTestPlaybooks();
    Ic3Command1InPlaybooks();
  }

  lemma Ic5Command1InScripts()
    ensures ScriptUsers(MockedIdSet.scripts, "ic5_command1") == []
  {
    ScriptUsersOfTwo(MockedIdSet.scripts[0], MockedIdSet.scripts[1], "ic5_command1");
  }

  lemma Ic5Command1InTestPlaybooks()
    ensures PlaybookUsers(MockedIdSet.testPlaybooks, UsesCommand, "ic5_command1", ListedIn([])) == []
  {
    PlaybookUsersOfTwo(MockedIdSet.testPlaybooks[0], MockedIdSet.testPlaybooks[1], UsesCommand, "ic5_command1", ListedIn([]));
  }

  lemma Ic5Command1InPlaybooks()
    ensures PlaybookUsers(MockedIdSet.playbooks, UsesCommand, "ic5_command1", Ungated) == []
  {
    PlaybookUsersOfTwo(MockedIdSet.playbooks[0], MockedIdSet.playbooks[1], UsesCommand, "ic5_command1", Ungated);
  }

  lemma Ic5Command1Usage()
    ensures CommandUsage(MockedIdSet, "ic5_command1", []) == []
  {
    Ic5Command1InScripts();
    Ic5Command1InTestPlaybooks();
    Ic5Command1InPlaybooks();
  }

  lemma Ic6Command1InScripts()
    ensures ScriptUsers(MockedIdSet.scripts, "ic6_command1") == ["script_2.yml"]
  {
    ScriptUsersOfTwo(MockedIdSet.scripts[0], MockedIdSet.scripts[1], "ic6_command1");
  }

  lemma Ic6Command1InTestPlaybooks()
    ensures PlaybookUsers(MockedIdSet.testPlaybooks, UsesCommand, "ic6_command1", ListedIn([])) == []
  {
    PlaybookUsersOfTwo(MockedIdSet.testPlaybooks[0], MockedIdSet.testPlaybooks[1], UsesCommand, "ic6_command1", ListedIn([]));
  }

  lemma Ic6Command1InPlaybooks()
    ensures PlaybookUsers(MockedIdSet.playbooks, UsesCommand, "ic6_command1", Ungated) == ["playbook_2.yml"]
  {
    PlaybookUsersOfTwo(MockedIdSet.playbooks[0], MockedIdSet.playbooks[1], UsesCommand, "ic6_command1", Ungated);
  }

  lemma Ic6Command1Usage()
    ensures CommandUsage(MockedIdSet, "ic6_command1", []) == ["script_2.yml", "playbook_2.yml"]
  {
    Ic6Command1InScripts();
    Ic6Command1InTestPlaybooks();
    Ic6Command1InPlaybooks();
  }

  lemma Ic6Command2InScripts()
    ensures ScriptUsers(MockedIdSet.scripts, "ic6_command2") == []
  {
    ScriptUsersOfTwo(MockedIdSet.scripts[0], MockedIdSet.scripts[1], "ic6_command2");
  }

  lemma Ic6Command2InTestPlaybooks()
    ensures PlaybookUsers(MockedIdSet.testPlaybooks, UsesCommand, "ic6_command2", ListedIn([])) == []
  {
    PlaybookUsersOfTwo(MockedIdSet.testPlaybooks[0], MockedIdSet.testPlaybooks[1], UsesCommand, "ic6_command2", ListedIn([]));
  }

  lemma Ic6Command2InPlaybooks()
    ensures PlaybookUsers(MockedIdSet.playbooks, UsesCommand, "ic6_command2", Ungated) == []
  {
    PlaybookUsersOfTwo(MockedIdSet.playbooks[0], MockedIdSet.playbooks[1], UsesCommand, "ic6_command2", Ungated);
  }

  lemma Ic6Command2Usage()
    ensures CommandUsage(MockedIdSet, "ic6_command2", []) == []
  {
    Ic6Command2InScripts();
    Ic6Command2InTestPlaybooks();
    Ic6Command2InPlaybooks();
  }

  lemma Ic7Command1InScripts()
    ensures ScriptUsers(MockedIdSet.scripts, "ic7_command1") == []
  {
    ScriptUsersOfTwo(MockedIdSet.scripts[0], MockedIdSet.scripts[1], "ic7_command1");
  }

  lemma Ic7Command1InTestPlaybooks()
    ensures PlaybookUsers(MockedIdSet.testPlaybooks, UsesCommand, "ic7_command1", ListedIn(["testplaybook_1", "testplaybook_2"])) == ["testplaybook_2.yml"]
  {
    PlaybookUsersOfTwo(MockedIdSet.testPlaybooks[0], MockedIdSet.testPlaybooks[1], UsesCommand, "ic7_command1", ListedIn(["testplaybook_1", "testplaybook_2"]));
  }

  lemma Ic7Command1InPlaybooks()
    ensures PlaybookUsers(MockedIdSet.playbooks, UsesCommand, "ic7_command1", Ungated) == []
  {
    PlaybookUsersOfTwo(MockedIdSet.playbooks[0], MockedIdSet.playbooks[1], UsesCommand, "ic7_command1", Ungated);
  }

  lemma Ic7Command1Usage()
    ensures CommandUsage(MockedIdSet, "ic7_command1", ["testplaybook_1", "testplaybook_2"]) == ["testplaybook_2.yml"]
  {
    Ic7Command1InScripts();
    Ic7Command1InTestPlaybooks();
    Ic7Command1InPlaybooks();
  }

  lemma Ic7Command2InScripts()
    ensures ScriptUsers(MockedIdSet.scripts, "ic7_command2") == []
  {
    ScriptUsersOfTwo(MockedIdSet.scripts[0], MockedIdSet.scripts[1], "ic7_command2");
  }

  lemma Ic7Command2InTestPlaybooks()
    ensures PlaybookUsers(MockedIdSet.testPlaybooks, UsesCommand, "ic7_command2", ListedIn(["testplaybook_1", "testplaybook_2"])) == []
  {
    PlaybookUsersOfTwo(MockedIdSet.testPlaybooks[0], MockedIdSet.testPlaybooks[1], UsesCommand, "ic7_command2", ListedIn(["testplaybook_1", "testplaybook_2"]));
  }

  lemma Ic7Command2InPlaybooks()
    ensures PlaybookUsers(MockedIdSet.playbooks, UsesCommand, "ic7_command2", Ungated) == []
  {
    PlaybookUsersOfTwo(MockedIdSet.playbooks[0], MockedIdSet.playbooks[1], UsesCommand, "ic7_command2", Ungated);
  }

  lemma Ic7Command2Usage()
    ensures CommandUsage(MockedIdSet, "ic7_command2", ["testplaybook_1", "testplaybook_2"]) == []
  {
    Ic7Command2InScripts();
    Ic7Command2InTestPlaybooks();
    Ic7Command2InPlaybooks();
  }

  lemma Ifc1Command1InScripts()
    ensures ScriptUsers(MockedIdSet.scripts, "ifc1_command1") == []
  {
    ScriptUsersOfTwo(MockedIdSet.scripts[0], MockedIdSet.scripts[1], "ifc1_command1");
  }

  lemma Ifc1Command1InTestPlaybooks()
    ensures PlaybookUsers(MockedIdSet.testPlaybooks, UsesCommand, "ifc1_command1", ListedIn(["testplaybook_1", "testplaybook_2"])) == ["testplaybook_2.yml"]
  {
    PlaybookUsersOfTwo(MockedIdSet.testPlaybooks[0], MockedIdSet.testPlaybooks[1], UsesCommand, "ifc1_command1", ListedIn(["testplaybook_1", "testplaybook_2"]));
  }

  lemma Ifc1Command1InPlaybooks()
    ensures PlaybookUsers(MockedIdSet.playbooks, UsesCommand, "ifc1_command1", Ungated) == ["playbook_2.yml"]
  {
    PlaybookUsersOfTwo(MockedIdSet.playbooks[0], MockedIdSet.playbooks[1], UsesCommand, "ifc1_command1", Ungated);
  }

  lemma Ifc1Command1Usage()
    ensures CommandUsage(MockedIdSet, "ifc1_command1", ["testplaybook_1", "testplaybook_2"]) == ["testplaybook_2.yml", "playbook_2.yml"]
  {
    Ifc1Command1InScripts();
    Ifc1Command1InTestPlaybooks();
    Ifc1Command1InPlaybooks();
  }

  lemma Ifc1Command2InScripts()
    ensures ScriptUsers(MockedIdSet.scripts, "ifc1_command2") == ["script_2.yml"]
  {
    ScriptUsersOfTwo(MockedIdSet.scripts[0], MockedIdSet.scripts[1], "ifc1_command2");
  }

  lemma Ifc1Command2InTestPlaybooks()
    ensures PlaybookUsers(MockedIdSet.testPlaybooks, UsesCommand, "ifc1_command2", ListedIn(["testplaybook_1", "testplaybook_2"])) == ["testplaybook_2.yml"]
  {
    PlaybookUsersOfTwo(MockedIdSet.testPlaybooks[0], MockedIdSet.testPlaybooks[1], UsesCommand, "ifc1_command2", ListedIn(["testplaybook_1", "testplaybook_2"]));
  }

  lemma Ifc1Command2InPlaybooks()
    ensures PlaybookUsers(MockedIdSet.playbooks, UsesCommand, "ifc1_command2", Ungated) == []
  {
    PlaybookUsersOfTwo(MockedIdSet.playbooks[0], MockedIdSet.playbooks[1], UsesCommand, "ifc1_command2", Ungated);
  }

  lemma Ifc1Command2Usage()
    ensures CommandUsage(MockedIdSet, "ifc1_command2", ["testplaybook_1", "testplaybook_2"]) == ["testplaybook_2.yml", "script_2.yml"]
  {
    Ifc1Command2InScripts();
    Ifc1Command2InTestPlaybooks();
    Ifc1Command2InPlaybooks();
  }

  lemma ScriptCase1InScripts()
    ensures ScriptUsers(MockedIdSet.scripts, "script_case_1") == []
  {
    ScriptUsersOfTwo(MockedIdSet.scripts[0], MockedIdSet.scripts[1], "script_case_1");
  }

  lemma ScriptCase1InTestPlaybooks()
    ensures PlaybookUsers(MockedIdSet.testPlaybooks, UsesScript, "script_case_1", ListedIn([])) == []
  {
    PlaybookUsersOfTwo(MockedIdSet.testPlaybooks[0], MockedIdSet.testPlaybooks[1], UsesScript, "script_case_1", ListedIn([]));
  }

  lemma ScriptCase1InPlaybooks()
    ensures PlaybookUsers(MockedIdSet.playbooks, UsesScript, "script_case_1", Ungated) == []
  {
    PlaybookUsersOfTwo(MockedIdSet.playbooks[0], MockedIdSet.playbooks[1], UsesScript, "script_case_1", Ungated);
  }

  lemma ScriptCase1Usage()
    ensures ScriptUsage(MockedIdSet, "script_case_1", []) == []
  {
    ScriptCase1InScripts();
    ScriptCase1InTestPlaybooks();
    ScriptCase1InPlaybooks();
  }

  lemma ScriptCase2InScripts()
    ensures ScriptUsers(MockedIdSet.scripts, "script_case_2") == []
  {
    ScriptUsersOfTwo(MockedIdSet.scripts[0], MockedIdSet.scripts[1], "script_case_2");
  }

  lemma ScriptCase2InTestPlaybooks()
    ensures PlaybookUsers(MockedIdSet.testPlaybooks, UsesScript, "script_case_2", ListedIn([])) == []
  {
    PlaybookUsersOfTwo(MockedIdSet.testPlaybooks[0], MockedIdSet.testPlaybooks[1], UsesScript, "script_case_2", ListedIn([]));
  }

  lemma ScriptCase2InPlaybooks()
    ensures PlaybookUsers(MockedIdSet.playbooks, UsesScript, "script_case_2", Ungated) == ["playbook_2.yml"]
  {
    PlaybookUsersOfTwo(MockedIdSet.playbooks[0], MockedIdSet.playbooks[1], UsesScript, "script_case_2", Ungated);
  }

  lemma ScriptCase2Usage()
    ensures ScriptUsage(MockedIdSet, "script_case_2", []) == ["playbook_2.yml"]
  {
    ScriptCase2InScripts();
    ScriptCase2InTestPlaybooks();
    ScriptCase2InPlaybooks();
  }

  lemma ScriptCase3InScripts()
    ensures ScriptUsers(MockedIdSet.scripts, "script_case_3") == ["script_2.yml"]
  {
    ScriptUsersOfTwo(MockedIdSet.scripts[0], MockedIdSet.scripts[1], "script_case_3");
  }

  lemma ScriptCase3InTestPlaybooks()
    ensures PlaybookUsers(MockedIdSet.testPlaybooks, UsesScript, "script_case_3", ListedIn([])) == []
  {
    PlaybookUsersOfTwo(MockedIdSet.testPlaybooks[0], MockedIdSet.testPlaybooks[1], UsesScript, "script_case_3", ListedIn([]));
  }

  lemma ScriptCase3InPlaybooks()
    ensures PlaybookUsers(MockedIdSet.playbooks, UsesScript, "script_case_3", Ungated) == []
  {
    PlaybookUsersOfTwo(MockedIdSet.playbooks[0], MockedIdSet.playbooks[1], UsesScript, "script_case_3", Ungated);
  }

  lemma ScriptCase3Usage()
    ensures ScriptUsage(MockedIdSet, "script_case_3", []) == ["script_2.yml"]
  {
    ScriptCase3InScripts();
    ScriptCase3InTestPlaybooks();
    ScriptCase3InPlaybooks();
  }

  lemma ScriptCase4InScripts()
    ensures ScriptUsers(MockedIdSet.scripts, "script_case_4") == []
  {
    ScriptUsersOfTwo(MockedIdSet.scripts[0], MockedIdSet.scripts[1], "script_case_4");
  }

  lemma ScriptCase4InTestPlaybooks()
    ensures PlaybookUsers(MockedIdSet.testPlaybooks, UsesScript, "script_case_4", ListedIn([NoTests])) == []
  {
    PlaybookUsersOfTwo(MockedIdSet.testPlaybooks[0], MockedIdSet.testPlaybooks[1], UsesScript, "script_case_4", ListedIn([NoTests]));
  }

  lemma ScriptCase4InPlaybooks()
    ensures PlaybookUsers(MockedIdSet.playbooks, UsesScript, "script_case_4", Ungated) == []
  {
    PlaybookUsersOfTwo(MockedIdSet.playbooks[0], MockedIdSet.playbooks[1], UsesScript, "script_case_4", Ungated);
  }

  lemma ScriptCase4Usage()
    ensures ScriptUsage(MockedIdSet, "script_case_4", [NoTests]) == []
  {
    ScriptCase4InScripts();
    ScriptCase4InTestPlaybooks();
    ScriptCase4InPlaybooks();
  }

  lemma ScriptCase5InScripts()
    ensures ScriptUsers(MockedIdSet.scripts, "script_case_5") == []
  {
    ScriptUsersOfTwo(MockedIdSet.scripts[0], MockedIdSet.scripts[1], "script_case_5");
  }

  lemma ScriptCase5InTestPlaybooks()
    ensures PlaybookUsers(MockedIdSet.testPlaybooks, UsesScript, "script_case_5", ListedIn(["testplaybook_1"])) == []
  {
    PlaybookUsersOfTwo(MockedIdSet.testPlaybooks[0], MockedIdSet.testPlaybooks[1], UsesScript, "script_case_5", ListedIn(["testplaybook_1"]));
  }

  lemma ScriptCase5InPlaybooks()
    ensures PlaybookUsers(MockedIdSet.playbooks, UsesScript, "script_case_5", Ungated) == []
  {
    PlaybookUsersOfTwo(MockedIdSet.playbooks[0], MockedIdSet.playbooks[1], UsesScript, "script_case_5", Ungated);
  }

  lemma ScriptCase5Usage()
    ensures ScriptUsage(MockedIdSet, "script_case_5", ["testplaybook_1"]) == []
  {
    ScriptCase5InScripts();
    ScriptCase5InTestPlaybooks();
    ScriptCase5InPlaybooks();
  }

  lemma ScriptCase6InScripts()
    ensures ScriptUsers(MockedIdSet.scripts, "script_case_6") == []
  {
    ScriptUsersOfTwo(MockedIdSet.scripts[0], MockedIdSet.scripts[1], "script_case_6");
  }

  lemma ScriptCase6InTestPlaybooks()
    ensures PlaybookUsers(MockedIdSet.testPlaybooks, UsesScript, "script_case_6", ListedIn(["testplaybook_2"])) == ["testplaybook_2.yml"]
  {
    PlaybookUsersOfTwo(MockedIdSet.testPlaybooks[0], MockedIdSet.testPlaybooks[1], UsesScript, "script_case_6", ListedIn(["testplaybook_2"]));
  }

  lemma ScriptCase6InPlaybooks()
    ensures PlaybookUsers(MockedIdSet.playbooks, UsesScript, "script_case_6", Ungated) == []
  {
    PlaybookUsersOfTwo(MockedIdSet.playbooks[0], MockedIdSet.playbooks[1], UsesScript, "script_case_6", Ungated);
  }

  lemma ScriptCase6Usage()
    ensures ScriptUsage(MockedIdSet, "script_case_6", ["testplaybook_2"]) == ["testplaybook_2.yml"]
  {
    ScriptCase6InScripts();
    ScriptCase6InTestPlaybooks();
    ScriptCase6InPlaybooks();
  }

  lemma ScriptFormatCase1InScripts()
    ensures ScriptUsers(MockedIdSet.scripts, "script_format_case_1") == ["script_2.yml"]
  {
    ScriptUsersOfTwo(MockedIdSet.scripts[0], MockedIdSet.scripts[1], "script_format_case_1");
  }

  lemma ScriptFormatCase1InTestPlaybooks()
    ensures PlaybookUsers(MockedIdSet.testPlaybooks, UsesScript, "script_format_case_1", ListedIn(["testplaybook_2"])) == ["testplaybook_2.yml"]
  {
    PlaybookUsersOfTwo(MockedIdSet.testPlaybooks[0], MockedIdSet.testPlaybooks[1], UsesScript, "script_format_case_1", ListedIn(["testplaybook_2"]));
  }

  lemma ScriptFormatCase1InPlaybooks()
    ensures PlaybookUsers(MockedIdSet.playbooks, UsesScript, "script_format_case_1", Ungated) == ["playbook_2.yml"]
  {
    PlaybookUsersOfTwo(MockedIdSet.playbooks[0], MockedIdSet.playbooks[1], UsesScript, "script_format_case_1", Ungated);
  }

  lemma ScriptFormatCase1Usage()
    ensures ScriptUsage(MockedIdSet, "script_format_case_1", ["testplaybook_2"]) == ["script_2.yml", "testplaybook_2.yml", "playbook_2.yml"]
  {
    ScriptFormatCase1InScripts();
    ScriptFormatCase1InTestPlaybooks();
    ScriptFormatCase1InPlaybooks();
  }

  lemma PlaybookCase1InTestPlaybooks()
    ensures PlaybookUsers(MockedIdSet.testPlaybooks, UsesPlaybook, "playbook_case_1", ListedIn([])) == []
  {
    PlaybookUsersOfTwo(MockedIdSet.testPlaybooks[0], MockedIdSet.testPlaybooks[1], UsesPlaybook, "playbook_case_1", ListedIn([]));
  }

  lemma PlaybookCase1InPlaybooks()
    ensures PlaybookUsers(MockedIdSet.playbooks, UsesPlaybook, "playbook_case_1", Ungated) == []
  {
    PlaybookUsersOfTwo(MockedIdSet.playbooks[0], MockedIdSet.playbooks[1], UsesPlaybook, "playbook_case_1", Ungated);
  }

  lemma PlaybookCase1Usage()
    ensures PlaybookUsage(MockedIdSet, "playbook_case_1", []) == []
  {
    PlaybookCase1InTestPlaybooks();
    PlaybookCase1InPlaybooks();
  }

  lemma PlaybookCase2InTestPlaybooks()
    ensures PlaybookUsers(MockedIdSet.testPlaybooks, UsesPlaybook, "playbook_case_2", ListedIn([])) == []
  {
    PlaybookUsersOfTwo(MockedIdSet.testPlaybooks[0], MockedIdSet.testPlaybooks[1], UsesPlaybook, "playbook_case_2", ListedIn([]));
  }

  lemma PlaybookCase2InPlaybooks()
    ensures PlaybookUsers(MockedIdSet.playbooks, UsesPlaybook, "playbook_case_2", Ungated) == ["playbook_2.yml"]
  {
    PlaybookUsersOfTwo(MockedIdSet.playbooks[0], MockedIdSet.playbooks[1], UsesPlaybook, "playbook_case_2", Ungated);
  }

  lemma PlaybookCase2Usage()
    ensures PlaybookUsage(MockedIdSet, "playbook_case_2", []) == ["playbook_2.yml"]
  {
    PlaybookCase2InTestPlaybooks();
    PlaybookCase2InPlaybooks();
  }

  lemma PlaybookCase4InTestPlaybooks()
    ensures PlaybookUsers(MockedIdSet.testPlaybooks, UsesPlaybook, "playbook_case_4", ListedIn([NoTests])) == []
  {
    PlaybookUsersOfTwo(MockedIdSet.testPlaybooks[0], MockedIdSet.testPlaybooks[1], UsesPlaybook, "playbook_case_4", ListedIn([NoTests]));
  }

  lemma PlaybookCase4InPlaybooks()
    ensures PlaybookUsers(MockedIdSet.playbooks, UsesPlaybook, "playbook_case_4", Ungated) == []
  {
    PlaybookUsersOfTwo(MockedIdSet.playbooks[0], MockedIdSet.playbooks[1], UsesPlaybook, "playbook_case_4", Ungated);
  }

  lemma PlaybookCase4Usage()
    ensures PlaybookUsage(MockedIdSet, "playbook_case_4", [NoTests]) == []
  {
    PlaybookCase4InTestPlaybooks();
    PlaybookCase4InPlaybooks();
  }

  lemma PlaybookCase5InTestPlaybooks()
    ensures PlaybookUsers(MockedIdSet.testPlaybooks, UsesPlaybook, "playbook_case_5", ListedIn(["testplaybook_1"])) == []
  {
    PlaybookUsersOfTwo(MockedIdSet.testPlaybooks[0], MockedIdSet.testPlaybooks[1], UsesPlaybook, "playbook_case_5", ListedIn(["testplaybook_1"]));
  }

  lemma PlaybookCase5InPlaybooks()
    ensures PlaybookUsers(MockedIdSet.playbooks, UsesPlaybook, "playbook_case_5", Ungated) == []
  {
    PlaybookUsersOfTwo(MockedIdSet.playbooks[0], MockedIdSet.playbooks[1], UsesPlaybook, "playbook_case_5", Ungated);
  }

  lemma PlaybookCase5Usage()
    ensures PlaybookUsage(MockedIdSet, "playbook_case_5", ["testplaybook_1"]) == []
  {
    PlaybookCase5InTestPlaybooks();
    PlaybookCase5InPlaybooks();
  }

  lemma PlaybookCase6InTestPlaybooks()
    ensures PlaybookUsers(MockedIdSet.testPlaybooks, UsesPlaybook, "playbook_case_6", ListedIn(["testplaybook_2"])) == ["testplaybook_2.yml"]
  {
    PlaybookUsersOfTwo(MockedIdSet.testPlaybooks[0], MockedIdSet.testPlaybooks[1], UsesPlaybook, "playbook_case_6", ListedIn(["testplaybook_2"]));
  }

  lemma PlaybookCase6InPlaybooks()
    ensures PlaybookUsers(MockedIdSet.playbooks, UsesPlaybook, "playbook_case_6", Ungated) == []
  {
    PlaybookUsersOfTwo(MockedIdSet.playbooks[0], MockedIdSet.playbooks[1], UsesPlaybook, "playbook_case_6", Ungated);
  }

  lemma PlaybookCase6Usage()
    ensures PlaybookUsage(MockedIdSet, "playbook_case_6", ["testplaybook_2"]) == ["testplaybook_2.yml"]
  {
    PlaybookCase6InTestPlaybooks();
    PlaybookCase6InPlaybooks();
  }

  lemma PlaybookFormatCase1InTestPlaybooks()
    ensures PlaybookUsers(MockedIdSet.testPlaybooks, UsesPlaybook, "playbook_format_case_1", ListedIn(["testplaybook_2"])) == ["testplaybook_2.yml"]
  {
    PlaybookUsersOfTwo(MockedIdSet.testPlaybooks[0], MockedIdSet.testPlaybooks[1], UsesPlaybook, "playbook_format_case_1", ListedIn(["testplaybook_2"]));
  }

  lemma PlaybookFormatCase1InPlaybooks()
    ensures PlaybookUsers(MockedIdSet.playbooks, UsesPlaybook, "playbook_format_case_1", Ungated) == ["playbook_2.yml"]
  {
    PlaybookUsersOfTwo(MockedIdSet.playbooks[0], MockedIdSet.playbooks[1], UsesPlaybook, "playbook_format_case_1", Ungated);
  }

  lemma PlaybookFormatCase1Usage()
    ensures PlaybookUsage(MockedIdSet, "playbook_format_case_1", ["testplaybook_2"]) == ["testplaybook_2.yml", "playbook_2.yml"]
  {
    PlaybookFormatCase1InTestPlaybooks();
    PlaybookFormatCase1InPlaybooks();
  }

  // Integration cases: the verdict and the commands named in the printed report

  /** A deprecated integration: its command, not marked itself, is used by `script_2`. */
  lemma IntegrationCase1()
    ensures var i := Integration("integration_case_1", true, [Command("ic1_command1", false)], []);
            IsIntegrationDeprecatedAndUsed(MockedIdSet, i)
            == (false, IntegrationDiagnostic("integration_case_1", [("ic1_command1", ["script_2.yml"])]))
  {
    Ic1Command1Usage();
  }

  /** A deprecated command used by the active `playbook_2`. */
  lemma IntegrationCase2()
    ensures var i := Integration("integration_case_2", false, [Command("ic2_command1", true)], []);
            IsIntegrationDeprecatedAndUsed(MockedIdSet, i)
            == (false, IntegrationDiagnostic("integration_case_2", [("ic2_command1", ["playbook_2.yml"])]))
  {
    Ic2Command1Usage();
  }

  /** A deprecated command used only by deprecated entities passes. */
  lemma IntegrationCase3()
    ensures IsIntegrationDeprecatedAndUsed(MockedIdSet,
              Integration("integration_case_3", false, [Command("ic3_command1", true)], [])) == (true, "")
  {
    Ic3Command1Usage();
  }

  /** A command that is not deprecated passes whoever uses it. */
  lemma IntegrationCase4()
    ensures IsIntegrationDeprecatedAndUsed(MockedIdSet,
              Integration("integration_case_4", false, [Command("ic4_command1", false)], [])) == (true, "")
  {
    NonDeprecatedIntegrationPasses(MockedIdSet,
      Integration("integration_case_4", false, [Command("ic4_command1", false)], []));
  }

  /** The deprecated command has only deprecated users; the active one is not checked. */
  lemma IntegrationCase5()
    ensures IsIntegrationDeprecatedAndUsed(MockedIdSet,
              Integration("integration_case_5", false,
                          [Command("ic5_command1", true), Command("ic5_command2", false)], [])) == (true, "")
  {
    Ic5Command1Usage();
    var cs := [Command("ic5_command1", true), Command("ic5_command2", false)];
    assert cs[1..] == [Command("ic5_command2", false)];
  }

  /** The commands reported for `integration_format_case_1`, one suffix of its command list
      at a time. */
  lemma FormatCaseFlaggedTail()
    ensures FlaggedCommands(MockedIdSet, false, [Command("ifc1_command2", true), Command("ifc1_command3", false)],
                            ["testplaybook_1", "testplaybook_2"])
            == [("ifc1_command2", ["testplaybook_2.yml", "script_2.yml"])]
  {
    Ifc1Command2Usage();
    FlaggedCons(MockedIdSet, false, Command("ifc1_command3", false), [], ["testplaybook_1", "testplaybook_2"], []);
    FlaggedCons(MockedIdSet, false, Command("ifc1_command2", true), [Command("ifc1_command3", false)], ["testplaybook_1", "testplaybook_2"],
                ["testplaybook_2.yml", "script_2.yml"]);
  }

  lemma FormatCaseFlagged()
    ensures FlaggedCommands(MockedIdSet, false,
              [Command("ifc1_command1", true), Command("ifc1_command2", true), Command("ifc1_command3", false)],
              ["testplaybook_1", "testplaybook_2"])
            == [("ifc1_command1", ["testplaybook_2.yml", "playbook_2.yml"]),
                ("ifc1_command2", ["testplaybook_2.yml", "script_2.yml"])]
  {
    Ifc1Command1Usage();
    FormatCaseFlaggedTail();
    FlaggedCons(MockedIdSet, false, Command("ifc1_command1", true),
                [Command("ifc1_command2", true), Command("ifc1_command3", false)], ["testplaybook_1", "testplaybook_2"],
                ["testplaybook_2.yml", "playbook_2.yml"]);
  }

  /** `ic6_command2` has no active user and `ic6_command3` is not deprecated. */
  lemma Case6FlaggedTail()
    ensures FlaggedCommands(MockedIdSet, false, [Command("ic6_command2", true), Command("ic6_command3", false)], [])
            == []
  {
    Ic6Command2Usage();
    FlaggedCons(MockedIdSet, false, Command("ic6_command3", false), [], [], []);
    FlaggedCons(MockedIdSet, false, Command("ic6_command2", true), [Command("ic6_command3", false)], [], []);
  }

  lemma Case6Flagged()
    ensures FlaggedCommands(MockedIdSet, false,
              [Command("ic6_command1", true), Command("ic6_command2", true), Command("ic6_command3", false)], [])
            == [("ic6_command1", ["script_2.yml", "playbook_2.yml"])]
  {
    Ic6Command1Usage();
    Case6FlaggedTail();
    FlaggedCons(MockedIdSet, false, Command("ic6_command1", true),
                [Command("ic6_command2", true), Command("ic6_command3", false)], [],
                ["script_2.yml", "playbook_2.yml"]);
  }

  /** Of two deprecated commands only the one with an active user is reported. */
  lemma IntegrationCase6()
    ensures var i := Integration("integration_case_6", false,
                                 [Command("ic6_command1", true), Command("ic6_command2", true),
                                  Command("ic6_command3", false)], []);
            IsIntegrationDeprecatedAndUsed(MockedIdSet, i)
            == (false, IntegrationDiagnostic("integration_case_6",
                         [("ic6_command1", ["script_2.yml", "playbook_2.yml"])]))
  {
    Case6Flagged();
  }

  lemma Case7Flagged()
    ensures FlaggedCommands(MockedIdSet, true, [Command("ic7_command1", false), Command("ic7_command2", false)],
                            ["testplaybook_1", "testplaybook_2"])
            == [("ic7_command1", ["testplaybook_2.yml"])]
  {
    Ic7Command1Usage();
    Ic7Command2Usage();
    FlaggedCons(MockedIdSet, true, Command("ic7_command2", false), [], ["testplaybook_1", "testplaybook_2"], []);
    FlaggedCons(MockedIdSet, true, Command("ic7_command1", false), [Command("ic7_command2", false)], ["testplaybook_1", "testplaybook_2"],
                ["testplaybook_2.yml"]);
  }

  /** Test-playbooks listed in `tests`: only the active `testplaybook_2` counts. */
  lemma IntegrationCase7()
    ensures var i := Integration("integration_case_7", true,
                                 [Command("ic7_command1", false), Command("ic7_command2", false)],
                                 ["testplaybook_1", "testplaybook_2"]);
            IsIntegrationDeprecatedAndUsed(MockedIdSet, i)
            == (false, IntegrationDiagnostic("integration_case_7", [("ic7_command1", ["testplaybook_2.yml"])]))
  {
    Case7Flagged();
  }

  /** The exact report: commands in declaration order, each followed by the paths of its
      active users (test-playbooks, then scripts, then playbooks); `ifc1_command3` is not
      deprecated and is absent. */
  lemma IntegrationFormatCase1()
    ensures var i := Integration("integration_format_case_1", false,
                                 [Command("ifc1_command1", true), Command("ifc1_command2", true),
                                  Command("ifc1_command3", false)],
                                 ["testplaybook_1", "testplaybook_2"]);
            IsIntegrationDeprecatedAndUsed(MockedIdSet, i)
            == (false, Strings.Join(
                         [IntegrationCode + "integration_format_case_1" + IntegrationTail,
                          "ifc1_command1" + CommandTail, "testplaybook_2.yml", "playbook_2.yml",
                          "ifc1_command2" + CommandTail, "testplaybook_2.yml", "script_2.yml"], "\n"))
  {
    var tests := ["testplaybook_1", "testplaybook_2"];
    var cs := [Command("ifc1_command1", true), Command("ifc1_command2", true), Command("ifc1_command3", false)];
    FormatCaseFlagged();
    FormatCaseBlocks();
  }

  lemma FormatCaseBlocks()
    ensures CommandBlocks([("ifc1_command1", ["testplaybook_2.yml", "playbook_2.yml"]),
                           ("ifc1_command2", ["testplaybook_2.yml", "script_2.yml"])])
            == ["ifc1_command1" + CommandTail, "testplaybook_2.yml", "playbook_2.yml",
                "ifc1_command2" + CommandTail, "testplaybook_2.yml", "script_2.yml"]
  {
    var flagged := [("ifc1_command1", ["testplaybook_2.yml", "playbook_2.yml"]),
                    ("ifc1_command2", ["testplaybook_2.yml", "script_2.yml"])];
    assert flagged[1..] == [flagged[1]];
    assert flagged[1..][1..] == [];
  }

  // Script cases

  lemma ScriptCase1()
    ensures IsScriptDeprecatedAndUsed(MockedIdSet, Entity("script_case_1", true, [])) == (true, "")
  {
    ScriptCase1Usage();
  }

  lemma ScriptCase2()
    ensures IsScriptDeprecatedAndUsed(MockedIdSet, Entity("script_case_2", true, []))
            == (false, ScriptDiagnostic("script_case_2", ["playbook_2.yml"]))
  {
    ScriptCase2Usage();
  }

  lemma ScriptCase3()
    ensures IsScriptDeprecatedAndUsed(MockedIdSet, Entity("script_case_3", true, []))
            == (false, ScriptDiagnostic("script_case_3", ["script_2.yml"]))
  {
    ScriptCase3Usage();
  }

  /** "No Tests" names no test-playbook; the only user, `script_1`, is deprecated. */
  lemma ScriptCase4()
    ensures IsScriptDeprecatedAndUsed(MockedIdSet, Entity("script_case_4", true, [NoTests])) == (true, "")
  {
    ScriptCase4Usage();
  }

  lemma ScriptCase5()
    ensures IsScriptDeprecatedAndUsed(MockedIdSet, Entity("script_case_5", true, ["testplaybook_1"])) == (true, "")
  {
    ScriptCase5Usage();
  }

  lemma ScriptCase6()
    ensures IsScriptDeprecatedAndUsed(MockedIdSet, Entity("script_case_6", true, ["testplaybook_2"]))
            == (false, ScriptDiagnostic("script_case_6", ["testplaybook_2.yml"]))
  {
    ScriptCase6Usage();
  }

  lemma ScriptCase7()
    ensures IsScriptDeprecatedAndUsed(MockedIdSet, Entity("script_case_7", false, [])) == (true, "")
  {
  }

  /** The exact report: scripts, then test-playbooks, then playbooks. `script_1` is absent
      because it is deprecated. */
  lemma ScriptFormatCase1()
    ensures IsScriptDeprecatedAndUsed(MockedIdSet, Entity("script_format_case_1", true, ["testplaybook_2"]))
            == (false, Strings.Join(
                         [ScriptCode + "script_format_case_1" + ScriptTail,
                          "script_2.yml", "testplaybook_2.yml", "playbook_2.yml"], "\n"))
  {
    ScriptFormatCase1Usage();
    var paths := ["script_2.yml", "testplaybook_2.yml", "playbook_2.yml"];
    assert ScriptUsage(MockedIdSet, "script_format_case_1", ["testplaybook_2"]) == paths;
    assert [ScriptHeader("script_format_case_1")] + paths
           == [ScriptCode + "script_format_case_1" + ScriptTail, "script_2.yml", "testplaybook_2.yml", "playbook_2.yml"];
  }

  // Playbook cases

  lemma PlaybookCase1()
    ensures IsPlaybookDeprecatedAndUsed(MockedIdSet, Entity("playbook_case_1", true, [])) == (true, "")
  {
    PlaybookCase1Usage();
  }

  lemma PlaybookCase2()
    ensures IsPlaybookDeprecatedAndUsed(MockedIdSet, Entity("playbook_case_2", true, []))
            == (false, PlaybookDiagnostic("playbook_case_2", ["playbook_2.yml"]))
  {
    PlaybookCase2Usage();
  }

  lemma PlaybookCase3()
    ensures IsPlaybookDeprecatedAndUsed(MockedIdSet, Entity("playbook_case_3", false, [])) == (true, "")
  {
  }

  lemma PlaybookCase4()
    ensures IsPlaybookDeprecatedAndUsed(MockedIdSet, Entity("playbook_case_4", true, [NoTests])) == (true, "")
  {
    PlaybookCase4Usage();
  }

  lemma PlaybookCase5()
    ensures IsPlaybookDeprecatedAndUsed(MockedIdSet, Entity("playbook_case_5", true, ["testplaybook_1"])) == (true, "")
  {
    PlaybookCase5Usage();
  }

  lemma PlaybookCase6()
    ensures IsPlaybookDeprecatedAndUsed(MockedIdSet, Entity("playbook_case_6", true, ["testplaybook_2"]))
            == (false, PlaybookDiagnostic("playbook_case_6", ["testplaybook_2.yml"]))
  {
    PlaybookCase6Usage();
  }

  /** The exact report: test-playbooks, then playbooks. */
  lemma PlaybookFormatCase1()
    ensures IsPlaybookDeprecatedAndUsed(MockedIdSet, Entity("playbook_format_case_1", true, ["testplaybook_2"]))
            == (false, Strings.Join(
                         [PlaybookCode + "playbook_format_case_1" + PlaybookTail,
                          "testplaybook_2.yml", "playbook_2.yml"], "\n"))
  {
    PlaybookFormatCase1Usage();
    var paths := ["testplaybook_2.yml", "playbook_2.yml"];
    assert PlaybookUsage(MockedIdSet, "playbook_format_case_1", ["testplaybook_2"]) == paths;
    assert [PlaybookHeader("playbook_format_case_1")] + paths
           == [PlaybookCode + "playbook_format_case_1" + PlaybookTail, "testplaybook_2.yml", "playbook_2.yml"];
  }
}
