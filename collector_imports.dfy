/** The lines added at the top of a Python file so that it can be loaded for collecting
    metadata. */
module CollectorImports {

  /** `YMLGenerator.IMPORT_COLLECTOR_LINE`. */
  const ImportCollectorLine: string :=
    "from demisto_sdk.commands.generate_yml_from_python.yml_metadata_collector import ("
    + "CommandMetadata, ConfTypesEnum, ConfKey, InputArgument, YMLMetadataCollector, "
    + "OutputArgument)"

  /** `YMLGenerator.EXPLICIT_DECLARATION_IMPORTS_LINE`. */
  const ExplicitDeclarationImportsLine: string :=
    "from CommonServerPython import BaseClient, CommandResults, datetime"

  /** The block written before the original content: both lines, then a blank line. */
  const ImportBlock: string := ImportCollectorLine + "\n" + ExplicitDeclarationImportsLine + "\n\n"
}
