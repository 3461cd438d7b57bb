/** The fixed wording of the deprecation diagnostics, and the fact that none of it holds a
    line break (so a report can be split back into its lines). The longer phrases are
    spelled as a few shorter pieces so that the verifier inspects short literals only. */
module DiagnosticTexts {

  const IntegrationCode := "[IN153] - "
  const IntegrationTail := " integration contain" + " deprecated commands" + " that are being used:"
  const CommandTail := " is being used" + " in the following locations:"
  const ScriptCode := "[SC107] - "
  const ScriptTail := " script is deprecated" + " and being used" + " in the following files:"
  const PlaybookCode := "[PB118] - "
  const PlaybookTail := " playbook is deprecated" + " and being used" + " in the following files:"

  lemma IntegrationWordingClean()
    ensures '\n' !in IntegrationCode && '\n' !in IntegrationTail
  {
    assert '\n' !in " integration contain";
    assert '\n' !in " deprecated commands";
    assert '\n' !in " that are being used:";
  }

  lemma CommandWordingClean()
    ensures '\n' !in CommandTail
  {
    assert '\n' !in " is being used";
    assert '\n' !in " in the following locations:";
  }

  lemma ScriptWordingClean()
    ensures '\n' !in ScriptCode && '\n' !in ScriptTail
  {
    assert '\n' !in " script is deprecated";
    assert '\n' !in " and being used";
    assert '\n' !in " in the following files:";
  }

  lemma PlaybookWordingClean()
    ensures '\n' !in PlaybookCode && '\n' !in PlaybookTail
  {
    assert '\n' !in " playbook is deprecated";
    assert '\n' !in " and being used";
    assert '\n' !in " in the following files:";
  }
}
