/**
 * `ToolParameterDescriptor`: a parameter descriptor of a tool adapter with a
 * parameter type (regular parameter, template file, template run before or
 * after the tool) that reads as the regular type while it is unset.
 *
 * The four type masks are symbolic: each is its own constructor, distinct
 * from the others and from any other text.
 */
module ParameterDescriptor {
  import opened Wrappers

  /** The parameter type masks. */
  datatype ParameterType = RegularParam | TemplateParam | TemplateBefore | TemplateAfter | OtherType(text: string)

  /**
   * The attributes the copy constructor carries over from a
   * `DefaultParameterDescriptor` (`label` is `title`, a keyword here). Class
   * references are their names.
   */
  datatype ParameterAttributes = ParameterAttributes(
    name: Option<string>, dataType: Option<string>, alias: Option<string>, defaultValue: Option<string>,
    description: Option<string>, title: Option<string>, unit: Option<string>, interval: Option<string>,
    valueSet: Option<seq<string>>, condition: Option<string>, pattern: Option<string>, format: Option<string>,
    notNull: bool, notEmpty: bool, rasterDataNodeClass: Option<string>, validatorClass: Option<string>,
    converterClass: Option<string>, domConverterClass: Option<string>, itemAlias: Option<string>)

  /** The attributes of a descriptor built without any. */
  const NoParameterAttributes := ParameterAttributes(
    None, None, None, None, None, None, None, None, None, None, None, None,
    false, false, None, None, None, None, None)

  /** The type a parameter type field reads as: an unset field reads as the regular type. */
  function TypeOf(field: Option<ParameterType>): (t: ParameterType)
    ensures field.None? ==> t == RegularParam
    ensures field.Some? ==> t == field.value
  {
    field.GetOr(RegularParam)
  }

  /** The four classifications of a parameter type. */
  predicate IsTemplateParameterType(t: ParameterType) { t == TemplateParam }
  predicate IsTemplateBeforeType(t: ParameterType) { t == TemplateBefore }
  predicate IsTemplateAfterType(t: ParameterType) { t == TemplateAfter }
  predicate IsParameterType(t: ParameterType) { t == RegularParam }

  /** The number of classifications that hold of `t`. */
  function Classifications(t: ParameterType): nat
  {
    (if IsTemplateParameterType(t) then 1 else 0) + (if IsTemplateBeforeType(t) then 1 else 0)
    + (if IsTemplateAfterType(t) then 1 else 0) + (if IsParameterType(t) then 1 else 0)
  }

  /**
   * Since the masks are distinct, at most one classification holds, and
   * exactly one holds unless the type is some other text.
   */
  lemma ClassificationsExclusive(t: ParameterType)
    ensures Classifications(t) <= 1
    ensures Classifications(t) == 1 <==> !t.OtherType?
  {
  }

  /** An unset field reads as a regular parameter and as nothing else. */
  lemma UnsetIsParameter()
    ensures IsParameterType(TypeOf(None)) && Classifications(TypeOf(None)) == 1
  {
  }

  class ToolParameterDescriptor {
    var attributes: ParameterAttributes
    var parameterType: Option<ParameterType>

    /** The type this descriptor reads as. */
    function EffectiveType(): (t: ParameterType)
      reads this
      ensures parameterType.Some? ==> t == parameterType.value
      ensures parameterType.None? ==> t == RegularParam
    {
      TypeOf(parameterType)
    }

    /** The no-argument constructor: no attributes, the regular type. */
    constructor ()
      ensures attributes == NoParameterAttributes && parameterType == Some(RegularParam)
    {
      attributes := NoParameterAttributes;
      parameterType := Some(RegularParam);
    }

    /** The constructor with a name and a data type; the type is regular. */
    constructor Named(name: Option<string>, dataType: Option<string>)
      ensures attributes == NoParameterAttributes.(name := name, dataType := dataType)
      ensures parameterType == Some(RegularParam)
    {
      attributes := NoParameterAttributes.(name := name, dataType := dataType);
      parameterType := Some(RegularParam);
    }

    /**
     * The copy constructor: built from the name and data type of `source`,
     * then every other attribute set from it in turn; the type is regular.
     */
    constructor Copy(source: ParameterAttributes)
      ensures attributes == source && parameterType == Some(RegularParam)
    {
      attributes := NoParameterAttributes.(name := source.name, dataType := source.dataType);
      parameterType := Some(RegularParam);
      new;
      attributes := attributes.(alias := source.alias);
      attributes := attributes.(defaultValue := source.defaultValue);
      attributes := attributes.(description := source.description);
      attributes := attributes.(title := source.title);
      attributes := attributes.(unit := source.unit);
      attributes := attributes.(interval := source.interval);
      attributes := attributes.(valueSet := source.valueSet);
      attributes := attributes.(condition := source.condition);
      attributes := attributes.(pattern := source.pattern);
      attributes := attributes.(format := source.format);
      attributes := attributes.(notNull := source.notNull);
      attributes := attributes.(notEmpty := source.notEmpty);
      attributes := attributes.(rasterDataNodeClass := source.rasterDataNodeClass);
      attributes := attributes.(validatorClass := source.validatorClass);
      attributes := attributes.(converterClass := source.converterClass);
      attributes := attributes.(domConverterClass := source.domConverterClass);
      attributes := attributes.(itemAlias := source.itemAlias);
      parameterType := Some(RegularParam);
    }

    /** The copy constructor with a type mask, which replaces the regular type. */
    constructor CopyWithMask(source: ParameterAttributes, mask: Option<ParameterType>)
      ensures attributes == source && parameterType == mask
    {
      attributes := source;
      parameterType := Some(RegularParam);
      new;
      parameterType := mask;
    }

    /** `getParameterType`: writes the regular type into an unset field, then returns the field. */
    method GetParameterType() returns (t: ParameterType)
      modifies this`parameterType
      ensures t == old(EffectiveType()) && parameterType == Some(t)
    {
      if parameterType.None? {
        parameterType := Some(RegularParam);
      }
      t := parameterType.value;
    }

    /** `setParameterType`. */
    method SetParameterType(t: Option<ParameterType>)
      modifies this`parameterType
      ensures parameterType == t
    {
      parameterType := t;
    }

    /** `isTemplateParameter`: the type, through the getter, is the template mask. */
    method IsTemplateParameter() returns (b: bool)
      modifies this`parameterType
      ensures b <==> IsTemplateParameterType(old(EffectiveType()))
      ensures parameterType == Some(old(EffectiveType()))
    {
      var t := GetParameterType();
      b := t == TemplateParam;
    }

    /** `isTemplateBefore`: the type, through the getter, is the before-template mask. */
    method IsTemplateBefore() returns (b: bool)
      modifies this`parameterType
      ensures b <==> IsTemplateBeforeType(old(EffectiveType()))
      ensures parameterType == Some(old(EffectiveType()))
    {
      var t := GetParameterType();
      b := t == TemplateBefore;
    }

    /** `isTemplateAfter`: the type, through the getter, is the after-template mask. */
    method IsTemplateAfter() returns (b: bool)
      modifies this`parameterType
      ensures b <==> IsTemplateAfterType(old(EffectiveType()))
      ensures parameterType == Some(old(EffectiveType()))
    {
      var t := GetParameterType();
      b := t == TemplateAfter;
    }

    /** `isParameter`: the type, through the getter, is the regular mask. */
    method IsParameter() returns (b: bool)
      modifies this`parameterType
      ensures b <==> IsParameterType(old(EffectiveType()))
      ensures parameterType == Some(old(EffectiveType()))
    {
      var t := GetParameterType();
      b := t == RegularParam;
    }
  }

  /** Reading the type twice gives the same value both times, and the field is set afterwards. */
  method GetParameterTypeTwice(d: ToolParameterDescriptor) returns (first: ParameterType, second: ParameterType)
    modifies d`parameterType
    ensures first == second == old(d.EffectiveType()) && d.parameterType == Some(first)
  {
    first := d.GetParameterType();
    second := d.GetParameterType();
  }

  /** Setting a type and reading it back gives that type, or the regular type for an unset one. */
  method SetThenGet(d: ToolParameterDescriptor, t: Option<ParameterType>) returns (r: ParameterType)
    modifies d`parameterType
    ensures r == TypeOf(t) && (t.None? ==> r == RegularParam) && (t.Some? ==> r == t.value)
  {
    d.SetParameterType(t);
    r := d.GetParameterType();
  }

  /** Exactly one classification method answers true for a descriptor whose type is one of the four masks. */
  method Classify(d: ToolParameterDescriptor) returns (template: bool, before: bool, after: bool, regular: bool)
    modifies d`parameterType
    ensures !old(d.EffectiveType()).OtherType? <==>
              (if template then 1 else 0) + (if before then 1 else 0) + (if after then 1 else 0) + (if regular then 1 else 0) == 1
    ensures !(template && before) && !(template && after) && !(template && regular)
    ensures !(before && after) && !(before && regular) && !(after && regular)
  {
    ghost var t0 := d.EffectiveType();
    template := d.IsTemplateParameter();
    before := d.IsTemplateBefore();
    after := d.IsTemplateAfter();
    regular := d.IsParameter();
    ClassificationsExclusive(t0);
  }
}
