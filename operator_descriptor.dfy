/**
 * `ToolAdapterOperatorDescriptor`: the description of an external tool
 * wrapped as an operator. A Java `null` is `None`; the Java arrays, which are
 * only ever filled when a descriptor is built, are sequences.
 *
 * XML (de)serialisation is foreign: what the XML reader yields is a parameter.
 */
module OperatorDescriptor {
  import opened Wrappers
  import opened Text

  /** The operator class: `Operator` itself or a named subclass. */
  datatype OperatorClass = OperatorBase | OperatorSubclass(className: string)

  /** A source product descriptor: the default one named after the tool's source product, or another. */
  datatype SourceProductDescriptor = ToolSourceProduct | OtherSourceProduct(id: nat)

  /** A descriptor the operator descriptor only refers to (sources, target product, target properties). */
  datatype Component = Component(id: nat)

  /** A system variable; `createCopy` yields an equal one. */
  datatype SystemVariable = SystemVariable(key: string, value: string)

  /** A template parameter descriptor; its copy constructor yields an equal one. */
  datatype TemplateParameter = TemplateParameter(name: string, parameterType: string)

  /** What the XML reader made of a document: a stream error, or the fields it read. */
  datatype XmlRead = StreamError(message: string) | Decoded(document: XmlDocument)

  /** The outcome of an operation that dereferences a list field. */
  datatype Outcome = Done | NullList

  /** `StringUtils.isNullOrEmpty`. */
  predicate IsNullOrEmpty(s: Option<string>)
  {
    s.None? || s.value == ""
  }

  /**
   * The stream of the copy constructors: the variables that are not null,
   * each copied (a copy equals its original), in order.
   */
  function NonNullCopies(variables: seq<Option<SystemVariable>>): (r: seq<Option<SystemVariable>>)
    ensures |r| <= |variables| && None !in r
  {
    if variables == [] then []
    else
      var rest := NonNullCopies(variables[1..]);
      if variables[0].Some? then [variables[0]] + rest else rest
  }

  /** Exactly the variables that are not null are copied. */
  lemma {:induction false} NonNullCopiesMembership(variables: seq<Option<SystemVariable>>, v: SystemVariable)
    ensures Some(v) in NonNullCopies(variables) <==> Some(v) in variables
  {
    if variables != [] {
      NonNullCopiesMembership(variables[1..], v);
      assert Some(v) in variables <==> Some(v) == variables[0] || Some(v) in variables[1..];
    }
  }

  /** Filtering keeps the order: the copies of a concatenation are the concatenation of the copies. */
  lemma {:induction false} NonNullCopiesAppend(a: seq<Option<SystemVariable>>, b: seq<Option<SystemVariable>>)
    ensures NonNullCopies(a + b) == NonNullCopies(a) + NonNullCopies(b)
  {
    if a == [] {
      assert a + b == b;
    } else {
      assert (a + b)[0] == a[0] && (a + b)[1..] == a[1..] + b;
      NonNullCopiesAppend(a[1..], b);
    }
  }

  /** A list without null is copied whole, so copying twice is copying once. */
  lemma {:induction false} NonNullCopiesIdempotent(variables: seq<Option<SystemVariable>>)
    ensures None !in variables ==> NonNullCopies(variables) == variables
    ensures NonNullCopies(NonNullCopies(variables)) == NonNullCopies(variables)
  {
    if variables != [] {
      NonNullCopiesIdempotent(variables[1..]);
      if variables[0].Some? {
        assert NonNullCopies(variables) == [variables[0]] + NonNullCopies(variables[1..]);
        assert ([variables[0]] + NonNullCopies(variables[1..]))[1..] == NonNullCopies(variables[1..]);
      }
    }
  }

  /** The position of the first element equal to `x`, if any. */
  function IndexOf<T(==)>(s: seq<T>, x: T): (r: Option<nat>)
    ensures r.Some? ==> r.value < |s| && s[r.value] == x && x !in s[..r.value]
    ensures r.None? <==> x !in s
  {
    if s == [] then None
    else if s[0] == x then Some(0)
    else
      match IndexOf(s[1..], x)
      case None => None
      case Some(i) =>
        assert s[..i + 1] == [s[0]] + s[1..][..i];
        Some(i + 1)
  }

  /** `List.remove(Object)`: the list without its first element equal to `x`. */
  function RemoveFirst<T(==)>(s: seq<T>, x: T): (r: seq<T>)
  {
    match IndexOf(s, x)
    case None => s
    case Some(i) => s[..i] + s[i + 1..]
  }

  /**
   * Removing takes out one occurrence, the first, and keeps the order of the
   * rest; a list without `x` is unchanged.
   */
  lemma RemoveFirstSpec<T>(s: seq<T>, x: T)
    ensures x !in s ==> RemoveFirst(s, x) == s
    ensures x in s ==> |RemoveFirst(s, x)| == |s| - 1 && multiset(RemoveFirst(s, x)) == multiset(s) - multiset{x}
    ensures x in s ==> exists i :: 0 <= i < |s| && s[i] == x && x !in s[..i] && RemoveFirst(s, x) == s[..i] + s[i + 1..]
  {
    if x in s {
      var i := IndexOf(s, x).value;
      assert s == s[..i] + [x] + s[i + 1..];
      assert multiset(s) == multiset(s[..i]) + multiset{x} + multiset(s[i + 1..]);
    }
  }

  /**
   * The menu location is split into group and entry: `split("/")` gives
   * more than two tokens and the last '/' is not the first character.
   */
  predicate SplitsMenu(location: string)
  {
    |JavaSplit(location, '/')| > 2 && LastIndexOf(location, '/') > 0
  }

  /** `getMenuGroup`: null without a location; the part before the last '/' when the location is split; otherwise the whole location. */
  function MenuGroup(menuLocation: Option<string>): Option<string>
  {
    match menuLocation
    case None => None
    case Some(location) =>
      if SplitsMenu(location) then Some(location[..LastIndexOf(location, '/')]) else Some(location)
  }

  /** `getMenuEntry`: the alias without a location; the part after the last '/' when the location is split; otherwise the whole location. */
  function MenuEntry(menuLocation: Option<string>, alias: Option<string>): Option<string>
  {
    match menuLocation
    case None => alias
    case Some(location) =>
      if SplitsMenu(location) then Some(location[LastIndexOf(location, '/') + 1..]) else Some(location)
  }

  /**
   * Group and entry: when the location is split, group + "/" + entry is the
   * location and the entry holds no '/'; otherwise both are the location.
   */
  lemma MenuGroupEntry(location: string, alias: Option<string>)
    ensures SplitsMenu(location) ==>
              && MenuGroup(Some(location)).Some? && MenuEntry(Some(location), alias).Some?
              && MenuGroup(Some(location)).value + "/" + MenuEntry(Some(location), alias).value == location
              && '/' !in MenuEntry(Some(location), alias).value
    ensures !SplitsMenu(location) ==>
              MenuGroup(Some(location)) == Some(location) && MenuEntry(Some(location), alias) == Some(location)
  {
    if SplitsMenu(location) {
      LastIndexOfSplits(location, '/');
    }
  }

  /**
   * The split applies exactly when the location holds a '/' past its first
   * character and some piece after the second '/' is not empty (trailing
   * empty tokens are dropped); it then holds at least two separators.
   */
  lemma SplitsMenuCondition(location: string)
    ensures SplitsMenu(location) <==>
              && LastIndexOf(location, '/') > 0
              && exists k :: 2 <= k < |SplitOn(location, '/')| && SplitOn(location, '/')[k] != ""
    ensures SplitsMenu(location) ==> CountChar(location, '/') >= 2
  {
    DropTrailingEmptyLength(SplitOn(location, '/'), 2);
  }

  /** The error `fromXml` reports for what the XML reader yielded, if any. */
  function XmlDescriptorError(resourceName: string, read: XmlRead): (r: Option<string>)
    ensures r.None? <==> read.Decoded? && !IsNullOrEmpty(read.document.attributes.name)
                         && !IsNullOrEmpty(read.document.attributes.alias)
    ensures read.Decoded? && IsNullOrEmpty(read.document.attributes.name) ==>
              r == Some("Invalid operator descriptor in '" + resourceName + "': missing 'name' element")
  {
    match read
    case StreamError(message) =>
      Some("Failed to read operator descriptor from '" + resourceName + "':\nError: " + message)
    case Decoded(document) =>
      var name, alias := document.attributes.name, document.attributes.alias;
      if IsNullOrEmpty(name) then
        Some("Invalid operator descriptor in '" + resourceName + "': missing 'name' element")
      else if IsNullOrEmpty(alias) then
        Some("Invalid operator descriptor in '" + resourceName + "': missing 'alias' element")
      else None
  }

  /** The loop that copies a descriptor array, or the parameter descriptor list, element by element. */
  method CopyArray<T>(source: seq<T>) returns (copy: seq<T>)
    ensures copy == source
  {
    copy := [];
    var i := 0;
    while i < |source|
      invariant 0 <= i <= |source| && copy == source[..i]
    {
      copy := copy + [source[i]];
      i := i + 1;
    }
  }

  /**
   * The descriptive fields of a descriptor (`label` is `title`, a keyword
   * here), with the getters that give an unset flag or class its default.
   */
  datatype Attributes = Attributes(
    name: Option<string>, operatorClass: Option<OperatorClass>, alias: Option<string>, title: Option<string>,
    version: Option<string>, description: Option<string>, authors: Option<string>, copyright: Option<string>,
    internal: Option<bool>, autoWriteSuppressed: Option<bool>, menuLocation: Option<string>)
  {
    /** `isInternal`: a null flag reads as false. */
    function IsInternal(): (b: bool)
      ensures b <==> internal == Some(true)
    {
      internal.GetOr(false)
    }

    /** `isAutoWriteDisabled`: a null flag reads as false. */
    function IsAutoWriteDisabled(): (b: bool)
      ensures b <==> autoWriteSuppressed == Some(true)
    {
      autoWriteSuppressed.Some? && autoWriteSuppressed.value
    }

    /** `getOperatorClass`: `Operator` when unset. */
    function GetOperatorClass(): (c: OperatorClass)
      ensures operatorClass.None? ==> c == OperatorBase
      ensures operatorClass.Some? ==> c == operatorClass.value
    {
      operatorClass.GetOr(OperatorBase)
    }

    /** `getMenuGroup`. */
    function GetMenuGroup(): (r: Option<string>)
      ensures r.None? <==> menuLocation.None?
      ensures r.Some? ==> IsPrefix(r.value, menuLocation.value)
    {
      MenuGroup(menuLocation)
    }

    /** `getMenuEntry`. */
    function GetMenuEntry(): (r: Option<string>)
      ensures menuLocation.None? ==> r == alias
      ensures menuLocation.Some? ==> r.Some? && |r.value| <= |menuLocation.value|
    {
      MenuEntry(menuLocation, alias)
    }

    /**
     * The attributes a copy constructor sets: read through the getters, so
     * the class and the two flags are no longer unset but read the same.
     */
    function ThroughGetters(): (a: Attributes)
      ensures a.operatorClass.Some? && a.internal.Some? && a.autoWriteSuppressed.Some?
      ensures a.GetOperatorClass() == GetOperatorClass() && a.IsInternal() == IsInternal()
      ensures a.IsAutoWriteDisabled() == IsAutoWriteDisabled()
      ensures a.name == name && a.alias == alias && a.title == title && a.version == version
      ensures a.description == description && a.authors == authors && a.copyright == copyright
      ensures a.menuLocation == menuLocation
    {
      this.(operatorClass := Some(GetOperatorClass()), internal := Some(IsInternal()),
            autoWriteSuppressed := Some(IsAutoWriteDisabled()))
    }
  }

  /** Attributes read through the getters are read the same way again: copying a copy changes nothing. */
  lemma ThroughGettersIdempotent(a: Attributes)
    ensures a.ThroughGetters().ThroughGetters() == a.ThroughGetters()
  {
  }

  /** No attribute set. */
  const NoAttributes := Attributes(None, None, None, None, None, None, None, None, None, None, None)

  /** The fields that say how the tool is run. */
  datatype ToolSettings = ToolSettings(
    preprocessTool: Option<bool>, preprocessorExternalTool: Option<string>,
    writeForProcessing: Option<bool>, processingWriter: Option<string>,
    mainToolFileLocation: Option<string>, workingDir: Option<string>, templateFileLocation: Option<string>,
    progressPattern: Option<string>, errorPattern: Option<string>)

  /** The field initialisers: no preprocessing and no writing before processing. */
  const DefaultToolSettings := ToolSettings(Some(false), None, Some(false), None, None, None, None, None, None)

  /** The value of a field after unmarshalling: the document's when it has the element, else the field's own. */
  function Keep<T>(element: Option<T>, current: Option<T>): Option<T>
  {
    if element.Some? then element else current
  }

  /** The tool settings after unmarshalling onto `current`, element by element. */
  function KeepTool(element: ToolSettings, current: ToolSettings): ToolSettings
  {
    ToolSettings(Keep(element.preprocessTool, current.preprocessTool),
                 Keep(element.preprocessorExternalTool, current.preprocessorExternalTool),
                 Keep(element.writeForProcessing, current.writeForProcessing),
                 Keep(element.processingWriter, current.processingWriter),
                 Keep(element.mainToolFileLocation, current.mainToolFileLocation),
                 Keep(element.workingDir, current.workingDir),
                 Keep(element.templateFileLocation, current.templateFileLocation),
                 Keep(element.progressPattern, current.progressPattern),
                 Keep(element.errorPattern, current.errorPattern))
  }

  /**
   * An operator descriptor document as the XML reader decodes it: one entry
   * per field the reader fills, `None` where the document has no element
   * for it (the reader then leaves the field as the constructor set it).
   */
  datatype XmlDocument = XmlDocument(
    attributes: Attributes,
    sourceProductDescriptors: Option<seq<SourceProductDescriptor>>,
    sourceProductsDescriptor: Option<Component>,
    targetProductDescriptor: Option<Component>,
    targetPropertyDescriptors: Option<seq<Component>>,
    tool: ToolSettings,
    variables: Option<seq<Option<SystemVariable>>>,
    toolParameterDescriptors: Option<seq<TemplateParameter>>,
    isSystem: Option<bool>)

  /** A document with no element besides the root. */
  const EmptyDocument := XmlDocument(NoAttributes, None, None, None, None,
                                     ToolSettings(None, None, None, None, None, None, None, None, None), None, None, None)

  class ToolAdapterOperatorDescriptor {
    var attributes: Attributes
    var sourceProductDescriptors: Option<seq<SourceProductDescriptor>>
    var sourceProductsDescriptor: Option<Component>
    var targetProductDescriptor: Option<Component>
    var targetPropertyDescriptors: Option<seq<Component>>
    var tool: ToolSettings
    var variables: Option<seq<Option<SystemVariable>>>
    var toolParameterDescriptors: Option<seq<TemplateParameter>>
    var isSystem: bool

    /** The state every constructor leaves besides the attributes: one source product named after the tool, empty lists. */
    predicate Initial()
      reads this
    {
      && sourceProductDescriptors == Some([ToolSourceProduct]) && sourceProductsDescriptor.None?
      && targetProductDescriptor.None? && targetPropertyDescriptors.None?
      && tool == DefaultToolSettings
      && variables == Some([]) && toolParameterDescriptors == Some([]) && !isSystem
    }

    /**
     * The fields hold what unmarshalling `document` onto a descriptor fresh
     * from the no-argument constructor leaves: the document's value where it
     * has an element, the constructor's elsewhere.
     */
    predicate Holds(document: XmlDocument)
      reads this
    {
      && attributes == document.attributes  // every attribute starts out null
      && sourceProductDescriptors == Keep(document.sourceProductDescriptors, Some([ToolSourceProduct]))
      && sourceProductsDescriptor == document.sourceProductsDescriptor
      && targetProductDescriptor == document.targetProductDescriptor
      && targetPropertyDescriptors == document.targetPropertyDescriptors
      && tool == KeepTool(document.tool, DefaultToolSettings)
      && variables == Keep(document.variables, Some([]))
      && toolParameterDescriptors == Keep(document.toolParameterDescriptors, Some([]))
      && isSystem == document.isSystem.GetOr(false)
    }

    /** Unmarshalling a document without elements leaves exactly the constructor's state. */
    lemma EmptyDocumentIsInitial()
      ensures Holds(EmptyDocument) <==> Initial() && attributes == NoAttributes
    {
    }

    /** The no-argument constructor the XML reader starts from. */
    constructor ()
      ensures Initial() && attributes == NoAttributes
    {
      attributes := NoAttributes;
      sourceProductDescriptors := Some([ToolSourceProduct]);
      sourceProductsDescriptor, targetProductDescriptor, targetPropertyDescriptors := None, None, None;
      tool := DefaultToolSettings;
      variables, toolParameterDescriptors := Some([]), Some([]);
      isSystem := false;
    }

    /** The constructor with a name and an operator class. */
    constructor Named(name: Option<string>, operatorClass: Option<OperatorClass>)
      ensures Initial() && attributes == NoAttributes.(name := name, operatorClass := operatorClass)
    {
      attributes := NoAttributes.(name := name, operatorClass := operatorClass);
      sourceProductDescriptors := Some([ToolSourceProduct]);
      sourceProductsDescriptor, targetProductDescriptor, targetPropertyDescriptors := None, None, None;
      tool := DefaultToolSettings;
      variables, toolParameterDescriptors := Some([]), Some([]);
      isSystem := false;
    }

    /** The constructor with every descriptive field; the two flags stay unset. */
    constructor Described(name: Option<string>, operatorClass: Option<OperatorClass>, alias: Option<string>,
                          title: Option<string>, version: Option<string>, description: Option<string>,
                          authors: Option<string>, copyright: Option<string>, menuLocation: Option<string>)
      ensures Initial()
      ensures attributes == Attributes(name, operatorClass, alias, title, version, description, authors, copyright,
                                       None, None, menuLocation)
    {
      attributes := Attributes(name, operatorClass, alias, title, version, description, authors, copyright,
                               None, None, menuLocation);
      sourceProductDescriptors := Some([ToolSourceProduct]);
      sourceProductsDescriptor, targetProductDescriptor, targetPropertyDescriptors := None, None, None;
      tool := DefaultToolSettings;
      variables, toolParameterDescriptors := Some([]), Some([]);
      isSystem := false;
    }

    /** `setName`. */
    method SetName(name: Option<string>)
      modifies this`attributes
      ensures attributes == old(attributes).(name := name)
    {
      attributes := attributes.(name := name);
    }

    /** `setAlias`. */
    method SetAlias(alias: Option<string>)
      modifies this`attributes
      ensures attributes == old(attributes).(alias := alias)
    {
      attributes := attributes.(alias := alias);
    }

    /** `setMenuLocation`. */
    method SetMenuLocation(menuLocation: Option<string>)
      modifies this`attributes
      ensures attributes == old(attributes).(menuLocation := menuLocation)
    {
      attributes := attributes.(menuLocation := menuLocation);
    }

    /** `setSystem`. */
    method SetSystem(value: bool)
      modifies this`isSystem
      ensures isSystem == value
    {
      isSystem := value;
    }

    /** `getSourceProductDescriptors`: empty when unset. */
    function GetSourceProductDescriptors(): (r: seq<SourceProductDescriptor>)
      reads this
      ensures sourceProductDescriptors.None? ==> r == []
      ensures sourceProductDescriptors.Some? ==> r == sourceProductDescriptors.value
    {
      sourceProductDescriptors.GetOr([])
    }

    /** `getTargetPropertyDescriptors`: empty when unset. */
    function GetTargetPropertyDescriptors(): (r: seq<Component>)
      reads this
      ensures targetPropertyDescriptors.None? ==> r == []
      ensures targetPropertyDescriptors.Some? ==> r == targetPropertyDescriptors.value
    {
      targetPropertyDescriptors.GetOr([])
    }

    /** `getVariables`: replaces a null list by an empty one, then returns the list. */
    method GetVariables() returns (r: seq<Option<SystemVariable>>)
      modifies this`variables
      ensures r == old(variables).GetOr([]) && variables == Some(r)
    {
      if variables.None? {
        variables := Some([]);
      }
      r := variables.value;
    }

    /** `getToolParameterDescriptors`: replaces a null list by an empty one, then returns the list. */
    method GetToolParameterDescriptors() returns (r: seq<TemplateParameter>)
      modifies this`toolParameterDescriptors
      ensures r == old(toolParameterDescriptors).GetOr([]) && toolParameterDescriptors == Some(r)
    {
      if toolParameterDescriptors.None? {
        toolParameterDescriptors := Some([]);
      }
      r := toolParameterDescriptors.value;
    }

    /** `getParameterDescriptors`: the tool parameter descriptors, as an array. */
    method GetParameterDescriptors() returns (r: seq<TemplateParameter>)
      modifies this`toolParameterDescriptors
      ensures r == old(toolParameterDescriptors).GetOr([]) && toolParameterDescriptors == Some(r)
    {
      var list := GetToolParameterDescriptors();
      r := CopyArray(list);
    }

    /** `addVariable`: appends to the list (a null list is dereferenced). */
    method AddVariable(variable: Option<SystemVariable>) returns (r: Outcome)
      modifies this`variables
      ensures r == Done <==> old(variables).Some?
      ensures r == Done ==> variables == Some(old(variables).value + [variable])
      ensures r == NullList ==> variables == old(variables)
    {
      if variables.None? {
        return NullList;
      }
      variables := Some(variables.value + [variable]);
      return Done;
    }

    /** `removeParamDescriptor`: removes the first equal descriptor (a null list is dereferenced). */
    method RemoveParamDescriptor(descriptor: TemplateParameter) returns (r: Outcome)
      modifies this`toolParameterDescriptors
      ensures r == Done <==> old(toolParameterDescriptors).Some?
      ensures r == Done ==> toolParameterDescriptors == Some(RemoveFirst(old(toolParameterDescriptors).value, descriptor))
      ensures r == NullList ==> toolParameterDescriptors == old(toolParameterDescriptors)
    {
      if toolParameterDescriptors.None? {
        return NullList;
      }
      var list := toolParameterDescriptors.value;
      var i := 0;
      while i < |list| && list[i] != descriptor
        invariant 0 <= i <= |list| && descriptor !in list[..i]
      {
        assert list[..i + 1] == list[..i] + [list[i]];
        i := i + 1;
      }
      if i < |list| {
        assert IndexOf(list, descriptor) == Some(i);
        toolParameterDescriptors := Some(list[..i] + list[i + 1..]);
      } else {
        assert list[..i] == list;
      }
      return Done;
    }

    /**
     * What a copy takes from `obj` besides its name, alias and variables: the
     * attributes through the getters, the tool settings as they are, a copy
     * of each array, and one copy of each parameter descriptor, in order.
     */
    predicate CopiesFieldsOf(obj: ToolAdapterOperatorDescriptor)
      reads this, obj
    {
      && attributes == obj.attributes.ThroughGetters().(name := attributes.name, alias := attributes.alias)
      && tool == obj.tool
      && sourceProductDescriptors == Some(obj.GetSourceProductDescriptors())
      && sourceProductsDescriptor == obj.sourceProductsDescriptor
      && toolParameterDescriptors == Some(obj.toolParameterDescriptors.GetOr([]))
      && targetProductDescriptor == obj.targetProductDescriptor
      && targetPropertyDescriptors == Some(obj.GetTargetPropertyDescriptors())
      && !isSystem
    }

    /**
     * The body of the copy constructor. Reading the lists of `obj` through
     * their getters replaces a null list by an empty one.
     */
    method CopyFrom(obj: ToolAdapterOperatorDescriptor)
      requires obj != this
      modifies this, obj`variables, obj`toolParameterDescriptors
      ensures obj.variables == Some(old(obj.variables).GetOr([]))
      ensures obj.toolParameterDescriptors == Some(old(obj.toolParameterDescriptors).GetOr([]))
      ensures attributes == obj.attributes.ThroughGetters() && CopiesFieldsOf(obj)
      ensures variables == Some(NonNullCopies(obj.variables.value))
    {
      var variableList := obj.GetVariables();
      var copies := NonNullCopies(variableList);
      assert [] + copies == copies;

      var sources := CopyArray(obj.GetSourceProductDescriptors());

      var parameterList := obj.GetToolParameterDescriptors();
      var parameters := CopyArray(parameterList);

      var targets := CopyArray(obj.GetTargetPropertyDescriptors());
      attributes, tool, variables := obj.attributes.ThroughGetters(), obj.tool, Some([] + copies);
      sourceProductDescriptors, sourceProductsDescriptor := Some(sources), obj.sourceProductsDescriptor;
      toolParameterDescriptors, targetProductDescriptor := Some(parameters), obj.targetProductDescriptor;
      targetPropertyDescriptors, isSystem := Some(targets), false;
    }

    /** The copy constructor. */
    constructor Copy(obj: ToolAdapterOperatorDescriptor)
      modifies obj`variables, obj`toolParameterDescriptors
      ensures obj.variables == Some(old(obj.variables).GetOr([]))
      ensures obj.toolParameterDescriptors == Some(old(obj.toolParameterDescriptors).GetOr([]))
      ensures attributes == obj.attributes.ThroughGetters() && CopiesFieldsOf(obj)
      ensures variables == Some(NonNullCopies(obj.variables.value))
    {
      new;
      CopyFrom(obj);
    }

    /**
     * The copy constructor under a new name and alias. It copies the non-null
     * variables of `obj` a second time, so each appears twice.
     */
    constructor CopyRenamed(obj: ToolAdapterOperatorDescriptor, newName: Option<string>, newAlias: Option<string>)
      modifies obj`variables, obj`toolParameterDescriptors
      ensures obj.variables == Some(old(obj.variables).GetOr([]))
      ensures obj.toolParameterDescriptors == Some(old(obj.toolParameterDescriptors).GetOr([]))
      ensures attributes == obj.attributes.ThroughGetters().(name := newName, alias := newAlias) && CopiesFieldsOf(obj)
      ensures variables == Some(NonNullCopies(obj.variables.value) + NonNullCopies(obj.variables.value))
    {
      new;
      CopyFrom(obj);
      attributes := attributes.(name := newName, alias := newAlias);
      var variableList := obj.GetVariables();
      variables := Some(variables.value + NonNullCopies(variableList));
    }

    /** `createCopy`: a copy under the same name and alias. */
    method CreateCopy() returns (c: ToolAdapterOperatorDescriptor)
      modifies this`variables, this`toolParameterDescriptors
      ensures fresh(c)
      ensures variables == Some(old(variables).GetOr([]))
      ensures toolParameterDescriptors == Some(old(toolParameterDescriptors).GetOr([]))
      ensures c.attributes == attributes.ThroughGetters() && c.CopiesFieldsOf(this)
      ensures c.variables == Some(NonNullCopies(variables.value) + NonNullCopies(variables.value))
    {
      c := new ToolAdapterOperatorDescriptor.CopyRenamed(this, attributes.name, attributes.alias);
    }

    /**
     * XStream's `fromXML(reader, this)` on a descriptor fresh from the
     * no-argument constructor: every field the document has an element for
     * takes the element's value, the others keep theirs.
     */
    method Unmarshal(document: XmlDocument)
      requires Initial() && attributes == NoAttributes
      modifies this
      ensures Holds(document)
    {
      var a, current := document.attributes, attributes;
      var decoded := Attributes(
        Keep(a.name, current.name), Keep(a.operatorClass, current.operatorClass),
        Keep(a.alias, current.alias), Keep(a.title, current.title),
        Keep(a.version, current.version), Keep(a.description, current.description),
        Keep(a.authors, current.authors), Keep(a.copyright, current.copyright),
        Keep(a.internal, current.internal), Keep(a.autoWriteSuppressed, current.autoWriteSuppressed),
        Keep(a.menuLocation, current.menuLocation));
      attributes, sourceProductDescriptors, sourceProductsDescriptor :=
        decoded,
        Keep(document.sourceProductDescriptors, sourceProductDescriptors),
        Keep(document.sourceProductsDescriptor, sourceProductsDescriptor);
      targetProductDescriptor, targetPropertyDescriptors, tool :=
        Keep(document.targetProductDescriptor, targetProductDescriptor),
        Keep(document.targetPropertyDescriptors, targetPropertyDescriptors),
        KeepTool(document.tool, tool);
      variables, toolParameterDescriptors, isSystem :=
        Keep(document.variables, variables),
        Keep(document.toolParameterDescriptors, toolParameterDescriptors),
        document.isSystem.GetOr(isSystem);
    }

    /**
     * `fromXml`: a descriptor filled from what the XML reader read, or the
     * error it reports (a stream error, a missing name, a missing alias).
     */
    static method FromXml(resourceName: string, read: XmlRead) returns (r: Result<ToolAdapterOperatorDescriptor, string>)
      ensures r.Err? <==> XmlDescriptorError(resourceName, read).Some?
      ensures r.Err? ==> r.error == XmlDescriptorError(resourceName, read).value
      ensures r.Ok? ==> fresh(r.value) && read.Decoded? && r.value.Holds(read.document)
    {
      var descriptor := new ToolAdapterOperatorDescriptor();
      match read
      case StreamError(message) =>
        return Err("Failed to read operator descriptor from '" + resourceName + "':\nError: " + message);
      case Decoded(document) =>
        descriptor.Unmarshal(document);
        if IsNullOrEmpty(descriptor.attributes.name) {
          return Err("Invalid operator descriptor in '" + resourceName + "': missing 'name' element");
        }
        if IsNullOrEmpty(descriptor.attributes.alias) {
          return Err("Invalid operator descriptor in '" + resourceName + "': missing 'alias' element");
        }
        return Ok(descriptor);
    }
  }
}
