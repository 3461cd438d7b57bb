/** Generating an integration YAML from a decorated Python file: the name of the YAML file,
    the import block added to (and removed from) the Python file while it is loaded, and the
    `MetadataToDict` builders that turn the collected metadata into the integration
    dictionary, its configuration keys, command arguments and command outputs. */
module GenerateYml {
  import opened Strings
  import opened CollectorImports
  import opened Wrappers


  /** A scalar Python value stored in the metadata; only its truthiness is inspected. */
  datatype Value = NoneValue | BoolValue(b: bool) | IntValue(i: int) | StrValue(s: string)

  /** Python truthiness: None, False, 0 and "" are false. */
  predicate Truthy(v: Value)
  {
    match v
    case NoneValue => false
    case BoolValue(b) => b
    case IntValue(i) => i != 0
    case StrValue(s) => s != []
  }

  /** The key holds the value exactly when the value is truthy, and is absent otherwise. */
  predicate KeptIfTruthy(key: Option<Value>, v: Value)
  {
    key == if Truthy(v) then Some(v) else None
  }

  // ---------------------------------------------------------------------------------------
  // The YAML file name

  /** `YMLGenerator.get_yml_filename`: drop the last '.'-separated segment, append `yml`, join
      with '.'. */
  function YmlFilename(filename: string): (r: string)
  {
    var parts := SplitOn(filename, ".");
    Join(parts[..|parts| - 1] + ["yml"], ".")
  }

  /** The YAML name replaces whatever follows the last '.' by `yml`; a name without '.' gives
      just `yml`. */
  lemma YmlFilenameReplacesLastSegment(filename: string)
    ensures YmlFilename(filename) ==
            if '.' !in filename then "yml" else filename[..LastIndexOf(filename, '.') + 1] + "yml"
  {
    var parts := SplitOn(filename, ".");
    var n := |parts|;
    SplitCharSingle(filename, '.');
    if '.' !in filename {
      assert parts[..n - 1] + ["yml"] == ["yml"];
    } else {
      var init := parts[..n - 1];
      var last := parts[n - 1];
      assert parts == init + [last];
      SplitCharPiecesClean(filename, '.');
      assert '.' !in last;
      JoinSplit(filename, ".");
      JoinSnoc(init, last, ".");
      assert filename == Join(init, ".") + "." + last;
      LastIndexOfSplit(Join(init, "."), '.', last);
      assert filename[..LastIndexOf(filename, '.') + 1] == Join(init, ".") + ".";
      JoinSnoc(init, "yml", ".");
    }
  }

  /** The usual case: `name.py` gives `name.yml`, whatever dots `name` holds. */
  lemma YmlFilenameOfPython(base: string)
    ensures YmlFilename(base + ".py") == base + ".yml"
  {
    var f := base + ".py";
    YmlFilenameReplacesLastSegment(f);
    assert f == base + ['.'] + "py";
    LastIndexOfSplit(base, '.', "py");
    assert f[..|base| + 1] == base + ".";
  }

  // ---------------------------------------------------------------------------------------
  // The import block added while the file is loaded

  /** `add_collector_imports`: prepend the import block unless the content already starts
      with the collector import line. */
  function AddCollectorImports(content: string): (r: string)
    ensures ImportCollectorLine <= r
    ensures ImportCollectorLine <= content ==> r == content
    ensures !(ImportCollectorLine <= content) ==> r == ImportBlock + content
  {
    if ImportCollectorLine <= content then content else ImportBlock + content
  }

  /** `remove_collector_imports`: when the collector import line occurs anywhere, split on the
      whole import block, keep the first piece and join the others with a newline. */
  function RemoveCollectorImports(content: string): (r: string)
    ensures !Contains(content, ImportCollectorLine) ==> r == content
  {
    if Contains(content, ImportCollectorLine) then
      var parts := SplitOn(content, ImportBlock);
      if |parts| > 1 then parts[0] + Join(parts[1..], "\n") else parts[0]
    else content
  }

  /** Adding the block twice adds it once. */
  lemma AddCollectorImportsIdempotent(content: string)
    ensures AddCollectorImports(AddCollectorImports(content)) == AddCollectorImports(content)
  {
  }

  /** Adding then removing gives back the original content, provided the content holds no
      copy of the import block itself. */
  lemma RemoveAfterAdd(content: string)
    requires !Contains(content, ImportBlock)
    ensures RemoveCollectorImports(AddCollectorImports(content)) == content
  {
    var added := AddCollectorImports(content);
    PrefixContains(added, ImportCollectorLine);
    if ImportCollectorLine <= content {
      SplitAbsent(content, ImportBlock);
    } else {
      SplitAfterSeparator(ImportBlock, content);
      SplitAbsent(content, ImportBlock);
      assert SplitOn(added, ImportBlock) == ["", content];
      assert SplitOn(added, ImportBlock)[1..] == [content];
    }
  }

  /** Content that already begins with the import block keeps it through the add, and loses
      it on the removal: this is why the round trip needs its precondition. */
  lemma RemoveStripsExistingBlock(rest: string)
    requires !Contains(rest, ImportBlock)
    ensures AddCollectorImports(ImportBlock + rest) == ImportBlock + rest
    ensures RemoveCollectorImports(AddCollectorImports(ImportBlock + rest)) == rest
  {
    var content := ImportBlock + rest;
    assert content[..|ImportCollectorLine|] == ImportCollectorLine;
    PrefixContains(content, ImportCollectorLine);
    SplitAfterSeparator(ImportBlock, rest);
    SplitAbsent(rest, ImportBlock);
    assert SplitOn(content, ImportBlock) == ["", rest];
    assert SplitOn(content, ImportBlock)[1..] == [rest];
  }

  // ---------------------------------------------------------------------------------------
  // Output types

  /** The Python types an output may be declared with. */
  datatype PyType = Str | AnyStr | DateTime | Date | Int | Float | Bool | Dict | List | Other

  /** `get_metadata_type`: the YAML type name of a Python type. */
  function MetadataType(t: PyType): (r: string)
    ensures r == "String" <==> t == Str || t == AnyStr
    ensures r == "Date" <==> t == DateTime || t == Date
    ensures r == "Number" <==> t == Int || t == Float
    ensures r == "Boolean" <==> t == Bool
    ensures r == "Unknown" <==> t == Dict || t == List || t == Other
  {
    match t
    case Str | AnyStr => "String"
    case DateTime | Date => "Date"
    case Int | Float => "Number"
    case Bool => "Boolean"
    case Dict | List | Other => "Unknown"
  }

  // ---------------------------------------------------------------------------------------
  // The collected metadata and the dictionaries built from it

  /** A configuration key declared with the collector (`ConfKey`). */
  datatype ConfKey = ConfKey(
    display: string, name: string, keyType: int, required: bool,
    defaultValue: Value, additionalInfo: Value, options: seq<string>)

  /** A configuration entry of the YAML; absent keys are `None`. */
  datatype ConfigMetadata = ConfigMetadata(
    display: string, name: string, keyType: int, required: bool,
    defaultValue: Option<Value>, additionalInfo: Option<Value>, options: Option<seq<string>>)

  /** What the configuration entry of a key holds: the four fixed keys copied, the three
      optional ones only when truthy. */
  predicate DescribesConfKey(m: ConfigMetadata, k: ConfKey)
  {
    m.display == k.display && m.name == k.name && m.keyType == k.keyType && m.required == k.required
    && KeptIfTruthy(m.defaultValue, k.defaultValue)
    && KeptIfTruthy(m.additionalInfo, k.additionalInfo)
    && m.options == if k.options != [] then Some(k.options) else None
  }

  /** The YAML keys an entry holds. */
  function ConfigKeys(m: ConfigMetadata): (keys: set<string>)
    ensures {"display", "name", "type", "required"} <= keys
  {
    {"display", "name", "type", "required"}
    + (if m.defaultValue.Some? then {"defaultvalue"} else {})
    + (if m.additionalInfo.Some? then {"additionalinfo"} else {})
    + (if m.options.Some? then {"options"} else {})
  }

  /** A command argument of the YAML (`add_arg_metadata`). */
  datatype ArgMetadata = ArgMetadata(
    name: string, isArray: bool, description: string, required: bool, secret: bool, default: bool,
    defaultValue: Option<Value>, predefined: Option<seq<Value>>, auto: Option<string>,
    execution: Option<bool>)

  /** A member of a Python enum. */
  datatype EnumMember = EnumMember(name: string, value: Value)

  /** An output declared for a command (`OutputArgument`); its own prefix may be None. */
  datatype OutputArgument = OutputArgument(name: string, prefix: Option<string>, outputType: PyType, description: string)

  /** An output entry of the YAML. */
  datatype OutputEntry = OutputEntry(contextPath: string, description: string, outputType: string)

  /** A command of the YAML, as built from a decorated function. */
  datatype CommandDict = CommandDict(
    deprecated: bool, description: string, name: string,
    arguments: seq<ArgMetadata>, outputs: seq<OutputEntry>, execution: Option<bool>)

  /** Everything `YMLMetadataCollector` holds that the integration dictionary reads. */
  datatype Collector = Collector(
    integrationName: string, display: Value, category: Value, description: Value,
    conf: seq<ConfKey>, integrationType: Value, integrationSubtype: Value, dockerImage: Value,
    isFeed: bool, isFetch: bool, isRunonce: bool, longRunning: bool, longRunningPort: Value,
    fromversion: Value, tests: seq<string>,
    detailedDescription: Value, deprecated: bool, system: bool, timeout: Value,
    defaultClassifier: Value, defaultMapperIn: Value, integrationNameX2: Value,
    defaultEnabled: Option<bool>, defaultEnabledX2: Option<bool>, image: Value)

  datatype CommonFields = CommonFields(id: string, version: int, nameX2: Option<Value>)

  datatype ScriptSection = ScriptSection(
    commands: seq<CommandDict>, script: string, scriptType: Value, subtype: Value, dockerImage: Value,
    feed: bool, isFetch: bool, runOnce: bool, longRunning: bool, longRunningPort: Value)

  /** The top-level keys of the integration dictionary that are present only under a
      condition; `None` when absent. */
  datatype OptionalKeys = OptionalKeys(
    detailedDescription: Option<Value>, deprecated: Option<bool>, system: Option<bool>, timeout: Option<Value>,
    defaultClassifier: Option<Value>, defaultMapperIn: Option<Value>,
    defaultEnabled: Option<bool>, defaultEnabledX2: Option<bool>, image: Option<Value>)

  /** The integration dictionary. */
  datatype IntegrationDict = IntegrationDict(
    category: Value, description: Value, commonFields: CommonFields, name: string, display: Value,
    configuration: seq<ConfigMetadata>, script: ScriptSection, fromVersion: Value, tests: seq<string>,
    optional: OptionalKeys)

  /** The six outputs appended for a command that returns a file. */
  const InfoFileOutputs: seq<OutputArgument> := [
    OutputArgument("EntryID", Some("InfoFile"), Dict, "The EntryID of the report file."),
    OutputArgument("Extension", Some("InfoFile"), Str, "The extension of the report file."),
    OutputArgument("Name", Some("InfoFile"), Str, "The name of the report file."),
    OutputArgument("Info", Some("InfoFile"), Str, "The info of the report file."),
    OutputArgument("Size", Some("InfoFile"), Int, "The size of the report file."),
    OutputArgument("Type", Some("InfoFile"), Str, "The type of the report file.")]

  /** An f-string renders a missing prefix as "None". */
  function PrefixText(prefix: Option<string>): string
  {
    match prefix
    case None => "None"
    case Some(p) => p
  }

  /** The context path of an output: its own prefix when the command has several, else the
      command prefix when there is one, else the bare name. */
  function ContextPath(o: OutputArgument, prefix: string, multiplePrefixes: bool): (path: string)
    ensures multiplePrefixes ==> path == PrefixText(o.prefix) + "." + o.name
    ensures !multiplePrefixes && prefix != "" ==> path == prefix + "." + o.name
    ensures !multiplePrefixes && prefix == "" ==> path == o.name
  {
    if multiplePrefixes then PrefixText(o.prefix) + "." + o.name
    else if prefix != "" then prefix + "." + o.name
    else o.name
  }

  /** The YAML entry of one output. */
  function OutputEntryOf(o: OutputArgument, prefix: string, multiplePrefixes: bool): OutputEntry
  {
    OutputEntry(ContextPath(o, prefix, multiplePrefixes), o.description, MetadataType(o.outputType))
  }

  /** With several prefixes the file outputs sit under `InfoFile`, with their fixed types. */
  lemma InfoFileEntriesWithOwnPrefix(prefix: string)
    ensures forall j :: 0 <= j < |InfoFileOutputs| ==>
              OutputEntryOf(InfoFileOutputs[j], prefix, true).contextPath == "InfoFile." + InfoFileOutputs[j].name
    ensures [OutputEntryOf(InfoFileOutputs[0], prefix, true).outputType,
             OutputEntryOf(InfoFileOutputs[4], prefix, true).outputType,
             OutputEntryOf(InfoFileOutputs[5], prefix, true).outputType] == ["Unknown", "Number", "String"]
  {
  }

  class MetadataToDict {
    /** The collector the dictionary is built from. */
    const mc: Collector
    /** The integration dictionary; `None` stands for the empty dictionary before it is built. */
    var metadataDict: Option<IntegrationDict>

    constructor(mc: Collector)
      ensures this.mc == mc && metadataDict == None
    {
      this.mc := mc;
      metadataDict := None;
    }

    /** `build_integration_dict`, given the dictionaries of the collected commands. */
    method BuildIntegrationDict(commands: seq<CommandDict>)
      modifies this
      ensures metadataDict.Some?
      ensures metadataDict.value.name == mc.integrationName
      ensures metadataDict.value.commonFields.id == mc.integrationName
      ensures metadataDict.value.commonFields.version == -1
      ensures metadataDict.value.display ==
              if Truthy(mc.display) then mc.display else StrValue(ReplaceChar(mc.integrationName, '_', ' '))
      ensures metadataDict.value.category == mc.category && metadataDict.value.description == mc.description
      ensures metadataDict.value.fromVersion == mc.fromversion && metadataDict.value.tests == mc.tests
      ensures metadataDict.value.script ==
              ScriptSection(commands, "-", mc.integrationType, mc.integrationSubtype, mc.dockerImage,
                            mc.isFeed, mc.isFetch, mc.isRunonce, mc.longRunning, mc.longRunningPort)
      ensures |metadataDict.value.configuration| == |mc.conf|
      ensures forall i :: 0 <= i < |mc.conf| ==> DescribesConfKey(metadataDict.value.configuration[i], mc.conf[i])
      ensures KeptIfTruthy(metadataDict.value.commonFields.nameX2, mc.integrationNameX2)
      ensures var o := metadataDict.value.optional;
              KeptIfTruthy(o.detailedDescription, mc.detailedDescription)
              && o.deprecated == (if mc.deprecated then Some(true) else None)
              && o.system == (if mc.system then Some(true) else None)
              && KeptIfTruthy(o.timeout, mc.timeout)
              && KeptIfTruthy(o.defaultClassifier, mc.defaultClassifier)
              && KeptIfTruthy(o.defaultMapperIn, mc.defaultMapperIn)
              && o.defaultEnabled == mc.defaultEnabled && o.defaultEnabledX2 == mc.defaultEnabledX2
              && KeptIfTruthy(o.image, mc.image)
    {
      var configKeys := ConfigurationOf(mc.conf);
      var display := mc.display;
      if !Truthy(display) {
        display := StrValue(ReplaceChar(mc.integrationName, '_', ' '));
      }
      var nameX2 := None;
      if Truthy(mc.integrationNameX2) {
        nameX2 := Some(mc.integrationNameX2);
      }
      var optional := OptionalKeysOf(mc);
      var d := IntegrationDict(
        mc.category, mc.description, CommonFields(mc.integrationName, -1, nameX2), mc.integrationName, display,
        configKeys,
        ScriptSection(commands, "-", mc.integrationType, mc.integrationSubtype, mc.dockerImage,
                      mc.isFeed, mc.isFetch, mc.isRunonce, mc.longRunning, mc.longRunningPort),
        mc.fromversion, mc.tests, optional);
      metadataDict := Some(d);
    }

    /** The top-level keys `build_integration_dict` adds only under a condition: most when
        the collected value is truthy, `defaultEnabled` and `defaultEnabled_x2` whenever they
        are not None. */
    static method OptionalKeysOf(mc: Collector) returns (o: OptionalKeys)
      ensures KeptIfTruthy(o.detailedDescription, mc.detailedDescription)
      ensures o.deprecated == if mc.deprecated then Some(true) else None
      ensures o.system == if mc.system then Some(true) else None
      ensures KeptIfTruthy(o.timeout, mc.timeout)
      ensures KeptIfTruthy(o.defaultClassifier, mc.defaultClassifier)
      ensures KeptIfTruthy(o.defaultMapperIn, mc.defaultMapperIn)
      ensures o.defaultEnabled == mc.defaultEnabled
      ensures o.defaultEnabledX2 == mc.defaultEnabledX2
      ensures KeptIfTruthy(o.image, mc.image)
    {
      var detailedDescription := KeepIfTruthy(mc.detailedDescription);
      var deprecated, system := None, None;
      if mc.deprecated {
        deprecated := Some(true);
      }
      if mc.system {
        system := Some(true);
      }
      var timeout := KeepIfTruthy(mc.timeout);
      var defaultClassifier := KeepIfTruthy(mc.defaultClassifier);
      var defaultMapperIn := KeepIfTruthy(mc.defaultMapperIn);
      var defaultEnabled, defaultEnabledX2 := None, None;
      if mc.defaultEnabled.Some? {
        defaultEnabled := mc.defaultEnabled;
      }
      if mc.defaultEnabledX2.Some? {
        defaultEnabledX2 := mc.defaultEnabledX2;
      }
      var image := KeepIfTruthy(mc.image);
      o := OptionalKeys(detailedDescription, deprecated, system, timeout, defaultClassifier, defaultMapperIn,
                        defaultEnabled, defaultEnabledX2, image);
    }

    /** The pattern `if value: d[key] = value`: the key's entry, present only for a truthy value. */
    static method KeepIfTruthy(v: Value) returns (key: Option<Value>)
      ensures KeptIfTruthy(key, v)
    {
      key := None;
      if Truthy(v) {
        key := Some(v);
      }
    }

    /** The configuration list: one entry per collected key, in order. */
    static method ConfigurationOf(conf: seq<ConfKey>) returns (configKeys: seq<ConfigMetadata>)
      ensures |configKeys| == |conf|
      ensures forall i :: 0 <= i < |conf| ==> DescribesConfKey(configKeys[i], conf[i])
    {
      configKeys := [];
      for i := 0 to |conf|
        invariant |configKeys| == i
        invariant forall j :: 0 <= j < i ==> DescribesConfKey(configKeys[j], conf[j])
      {
        var entry := ConfigMetadataFromKey(conf[i]);
        configKeys := configKeys + [entry];
      }
    }

    /** `config_metadata_from_key`. */
    static method ConfigMetadataFromKey(k: ConfKey) returns (m: ConfigMetadata)
      ensures DescribesConfKey(m, k)
      ensures "defaultvalue" in ConfigKeys(m) <==> Truthy(k.defaultValue)
      ensures "additionalinfo" in ConfigKeys(m) <==> Truthy(k.additionalInfo)
      ensures "options" in ConfigKeys(m) <==> k.options != []
    {
      m := ConfigMetadata(k.display, k.name, k.keyType, k.required, None, None, None);
      if Truthy(k.defaultValue) {
        m := m.(defaultValue := Some(k.defaultValue));
      }
      if Truthy(k.additionalInfo) {
        m := m.(additionalInfo := Some(k.additionalInfo));
      }
      if k.options != [] {
        m := m.(options := Some(k.options));
      }
    }

    /** `add_arg_metadata`. The `required` argument is accepted and then overwritten: whether
        the argument is required depends on the default value alone. */
    static method AddArgMetadata(argName: string, description: string, defaultValue: Value, isArray: bool,
                                 secret: bool, options: seq<Value>, execution: bool, required: bool)
      returns (m: ArgMetadata)
      ensures m.name == argName
      ensures m.description == if description != "" then description else argName
      ensures m.required <==> !Truthy(defaultValue)
      ensures KeptIfTruthy(m.defaultValue, defaultValue)
      ensures !m.default
      ensures m.isArray == isArray && m.secret == secret
      ensures m.predefined.Some? <==> options != []
      ensures m.predefined.Some? ==> m.predefined.value == options && m.auto == Some("PREDEFINED")
      ensures m.auto.Some? <==> options != []
      ensures m.execution == if execution then Some(true) else None
    {
      m := ArgMetadata(argName, false, argName, required, false, false, None, None, None, None);
      if description != "" {
        m := m.(description := description);
      }
      if Truthy(defaultValue) {
        m := m.(required := false, defaultValue := Some(defaultValue));
      } else {
        m := m.(required := true);
      }
      if isArray {
        m := m.(isArray := true);
      }
      if options != [] {
        m := m.(predefined := Some(options), auto := Some("PREDEFINED"));
      }
      if secret {
        m := m.(secret := true);
      }
      if execution {
        m := m.(execution := Some(true));
      }
    }

    /** `handle_enum`: the values of the enum's members, in declaration order. */
    static method HandleEnum(members: seq<EnumMember>) returns (result: seq<Value>)
      ensures |result| == |members|
      ensures forall i :: 0 <= i < |members| ==> result[i] == members[i].value
    {
      result := [];
      for i := 0 to |members|
        invariant |result| == i
        invariant forall j :: 0 <= j < i ==> result[j] == members[j].value
      {
        result := result + [members[i].value];
      }
    }

    /** `organize_outputs`: one entry per output in order, followed, for a command returning
        a file, by the entries of the six `InfoFile` outputs. */
    static method OrganizeOutputs(outputs: seq<OutputArgument>, prefix: string, multiplePrefixes: bool,
                                  fileOutput: bool)
      returns (organized: seq<OutputEntry>)
      ensures |organized| == |outputs| + (if fileOutput then |InfoFileOutputs| else 0)
      ensures forall i :: 0 <= i < |outputs| ==> organized[i] == OutputEntryOf(outputs[i], prefix, multiplePrefixes)
      ensures fileOutput ==> forall j :: 0 <= j < |InfoFileOutputs| ==>
                organized[|outputs| + j] == OutputEntryOf(InfoFileOutputs[j], prefix, multiplePrefixes)
    {
      var all := if fileOutput then outputs + InfoFileOutputs else outputs;
      organized := [];
      for i := 0 to |all|
        invariant |organized| == i
        invariant forall j :: 0 <= j < i ==> organized[j] == OutputEntryOf(all[j], prefix, multiplePrefixes)
      {
        var o := all[i];
        var contextPath := o.name;
        if prefix != "" {
          contextPath := prefix + "." + o.name;
        }
        if multiplePrefixes {
          contextPath := PrefixText(o.prefix) + "." + o.name;
        }
        organized := organized + [OutputEntry(contextPath, o.description, MetadataType(o.outputType))];
      }
      if fileOutput {
        assert forall j :: 0 <= j < |InfoFileOutputs| ==> all[|outputs| + j] == InfoFileOutputs[j];
      }
    }
  }
}
