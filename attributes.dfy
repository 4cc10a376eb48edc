/**
 * Validation of the attribute names a filter may refer to. The Java
 * `QueryBuilder` finds the legal names by reflection over the private fields of the resource class
 * and of three companion classes; here that knowledge is an explicit schema.
 */
module Attributes {

  import opened Strings

  /**
   * The types whose fields can be queried: the resource type the builder was
   * created for (for instance User) and the three companion types reached
   * through the prefixes `meta.`, `emails.` and `name.`.
   */
  datatype TypeTag = Root | Meta | MultiValuedAttribute | Name

  /** For each type, the names of its private declared fields. */
  type Schema = map<TypeTag, set<string>>

  /** A type the schema does not mention has no fields. */
  function Fields(schema: Schema, tag: TypeTag): set<string>
  {
    if tag in schema then schema[tag] else {}
  }

  /** The text after the first dot; empty when the name has no dot. */
  function CompositeField(attribute: string): (r: string)
    ensures '.' !in attribute ==> r == ""
    ensures '.' in attribute ==>
      var k := |attribute| - |r| - 1;
      0 <= k && attribute[k] == '.' && '.' !in attribute[..k] && r == attribute[k + 1..]
  {
    if '.' in attribute then attribute[IndexOf(attribute, '.') + 1..] else ""
  }

  /** The three nested-path prefixes the Java `QueryBuilder` recognises, in the order it tests them. */
  datatype Prefix = MetaPrefix | EmailsPrefix | NamePrefix

  function PrefixText(p: Prefix): string
  {
    match p
    case MetaPrefix => "meta."
    case EmailsPrefix => "emails."
    case NamePrefix => "name."
  }

  /** The companion type whose fields the rest of a prefixed name is checked against. */
  function PrefixType(p: Prefix): TypeTag
  {
    match p
    case MetaPrefix => Meta
    case EmailsPrefix => MultiValuedAttribute
    case NamePrefix => Name
  }

  predicate HasKnownPrefix(s: string)
  {
    StartsWith(s, "meta.") || StartsWith(s, "emails.") || StartsWith(s, "name.")
  }

  /** Some private field of the type is named `attribute`, ignoring case. */
  predicate MatchesField(schema: Schema, tag: TypeTag, attribute: string)
  {
    exists field :: field in Fields(schema, tag) && EqualsIgnoreCase(field, attribute)
  }

  /**
   * `isAttributeValid(attribute, clazz)`: a recognised prefix sends the text
   * after the first dot to the companion type; any other name, dotted or not,
   * is compared whole with the fields of `tag`.
   */
  predicate IsAttributeValid(schema: Schema, attribute: string, tag: TypeTag)
    decreases |attribute|
  {
    var compositeField := CompositeField(attribute);
    if StartsWith(attribute, "meta.") then IsAttributeValid(schema, compositeField, Meta)
    else if StartsWith(attribute, "emails.") then IsAttributeValid(schema, compositeField, MultiValuedAttribute)
    else if StartsWith(attribute, "name.") then IsAttributeValid(schema, compositeField, Name)
    else MatchesField(schema, tag, attribute)
  }

  /** For a name with a recognised prefix, the composite field is exactly what follows the prefix. */
  lemma CompositeFieldAfterPrefix(attribute: string, p: Prefix)
    requires StartsWith(attribute, PrefixText(p))
    ensures CompositeField(attribute) == attribute[|PrefixText(p)|..]
  {
    var n := |PrefixText(p)|;
    assert attribute[n - 1] == PrefixText(p)[n - 1] == '.';
    assert '.' !in attribute[..n - 1] by {
      assert attribute[..n - 1] == PrefixText(p)[..n - 1];
    }
  }

  lemma PrefixIsKnown(attribute: string, p: Prefix)
    requires StartsWith(attribute, PrefixText(p))
    ensures HasKnownPrefix(attribute)
    ensures StartsWith(attribute, "meta.") ==> p == MetaPrefix
    ensures StartsWith(attribute, "emails.") ==> p == EmailsPrefix
    ensures StartsWith(attribute, "name.") ==> p == NamePrefix
  {
    assert attribute[0] == PrefixText(p)[0];
  }

  /**
   * A name under a recognised prefix is valid for any type exactly when the
   * rest of it is valid for the prefix's companion type.
   */
  lemma PrefixedValidity(schema: Schema, attribute: string, tag: TypeTag, p: Prefix)
    requires StartsWith(attribute, PrefixText(p))
    ensures IsAttributeValid(schema, attribute, tag)
        <==> IsAttributeValid(schema, attribute[|PrefixText(p)|..], PrefixType(p))
  {
    CompositeFieldAfterPrefix(attribute, p);
    PrefixIsKnown(attribute, p);
  }

  /** A name without a recognised prefix is valid exactly when it equals some field name, ignoring case. */
  lemma UnprefixedValidity(schema: Schema, attribute: string, tag: TypeTag)
    requires !HasKnownPrefix(attribute)
    ensures IsAttributeValid(schema, attribute, tag)
        <==> exists field :: field in Fields(schema, tag) && EqualsIgnoreCase(field, attribute)
  {
  }

  /** Two unprefixed names that differ only in letter case are both valid or both invalid. */
  lemma ValidityIgnoresCase(schema: Schema, a: string, b: string, tag: TypeTag)
    requires !HasKnownPrefix(a) && !HasKnownPrefix(b) && EqualsIgnoreCase(a, b)
    ensures IsAttributeValid(schema, a, tag) <==> IsAttributeValid(schema, b, tag)
  {
    if IsAttributeValid(schema, a, tag) {
      var field :| field in Fields(schema, tag) && EqualsIgnoreCase(field, a);
      EqualsIgnoreCaseIsEquivalence(field, a, b);
    }
    if IsAttributeValid(schema, b, tag) {
      var field :| field in Fields(schema, tag) && EqualsIgnoreCase(field, b);
      EqualsIgnoreCaseIsEquivalence(b, a, field);
      EqualsIgnoreCaseIsEquivalence(field, b, a);
    }
  }

  /**
   * Field names are Java identifiers and hold no dot. Under that condition a
   * dotted name outside the three prefixes, which the Java `QueryBuilder`
   * compares whole with the fields of the type, is never valid.
   */
  predicate DotFree(schema: Schema)
  {
    forall tag, field :: tag in schema && field in schema[tag] ==> '.' !in field
  }

  lemma UnknownDottedNameInvalid(schema: Schema, attribute: string, tag: TypeTag)
    requires DotFree(schema)
    requires '.' in attribute && !HasKnownPrefix(attribute)
    ensures !IsAttributeValid(schema, attribute, tag)
  {
    if IsAttributeValid(schema, attribute, tag) {
      var field :| field in Fields(schema, tag) && EqualsIgnoreCase(field, attribute);
      EqualsIgnoreCaseKeepsDot(field, attribute);
      assert false;
    }
  }

  // An independent description of validity: a name is valid when it is a
  // chain of recognised prefixes followed by a field name of the type the
  // chain leads to, and the remainder itself starts with no recognised prefix.

  function Join(ps: seq<Prefix>): string
  {
    if ps == [] then "" else PrefixText(ps[0]) + Join(ps[1..])
  }

  /** The type reached from `tag` by following the prefixes: the last prefix decides. */
  function Target(ps: seq<Prefix>, tag: TypeTag): TypeTag
  {
    if ps == [] then tag else Target(ps[1..], PrefixType(ps[0]))
  }

  ghost predicate IsPath(schema: Schema, attribute: string, tag: TypeTag, ps: seq<Prefix>)
  {
    StartsWith(attribute, Join(ps)) &&
    var rest := attribute[|Join(ps)|..];
    !HasKnownPrefix(rest) && MatchesField(schema, Target(ps, tag), rest)
  }

  lemma {:induction false} JoinSplits(attribute: string, ps: seq<Prefix>)
    requires ps != [] && StartsWith(attribute, Join(ps))
    ensures StartsWith(attribute, PrefixText(ps[0]))
    ensures StartsWith(attribute[|PrefixText(ps[0])|..], Join(ps[1..]))
    ensures attribute[|Join(ps)|..] == attribute[|PrefixText(ps[0])|..][|Join(ps[1..])|..]
  {
    var n := |PrefixText(ps[0])|;
    assert attribute[..n] == Join(ps)[..n];
    assert attribute[n..][..|Join(ps[1..])|] == Join(ps)[n..];
  }

  lemma {:induction false} ValidGivesPath(schema: Schema, attribute: string, tag: TypeTag)
    requires IsAttributeValid(schema, attribute, tag)
    ensures exists ps :: IsPath(schema, attribute, tag, ps)
    decreases |attribute|
  {
    if !HasKnownPrefix(attribute) {
      assert IsPath(schema, attribute, tag, []);
    } else {
      var p := if StartsWith(attribute, "meta.") then MetaPrefix
               else if StartsWith(attribute, "emails.") then EmailsPrefix
               else NamePrefix;
      var n := |PrefixText(p)|;
      var tail := attribute[n..];
      PrefixedValidity(schema, attribute, tag, p);
      ValidGivesPath(schema, tail, PrefixType(p));
      var ps' :| IsPath(schema, tail, PrefixType(p), ps');
      PathCons(schema, attribute, tag, p, ps');
    }
  }

  /** A path for the text after a prefix extends to a path for the whole name. */
  lemma PathCons(schema: Schema, attribute: string, tag: TypeTag, p: Prefix, ps': seq<Prefix>)
    requires StartsWith(attribute, PrefixText(p))
    requires IsPath(schema, attribute[|PrefixText(p)|..], PrefixType(p), ps')
    ensures IsPath(schema, attribute, tag, [p] + ps')
  {
    var n := |PrefixText(p)|;
    var tail := attribute[n..];
    var ps := [p] + ps';
    assert ps[1..] == ps';
    assert Join(ps) == PrefixText(p) + Join(ps');
    assert Target(ps, tag) == Target(ps', PrefixType(p));
    assert attribute == PrefixText(p) + tail;
    assert attribute[..|Join(ps)|] == PrefixText(p) + tail[..|Join(ps')|];
    assert attribute[|Join(ps)|..] == tail[|Join(ps')|..];
  }

  lemma {:induction false} PathGivesValid(schema: Schema, attribute: string, tag: TypeTag, ps: seq<Prefix>)
    requires IsPath(schema, attribute, tag, ps)
    ensures IsAttributeValid(schema, attribute, tag)
    decreases ps
  {
    if ps == [] {
      assert attribute[|Join(ps)|..] == attribute;
    } else {
      JoinSplits(attribute, ps);
      var tail := attribute[|PrefixText(ps[0])|..];
      PathGivesValid(schema, tail, PrefixType(ps[0]), ps[1..]);
      PrefixedValidity(schema, attribute, tag, ps[0]);
    }
  }

  /** The recursive check agrees with the description by prefix chains, in both directions. */
  lemma ValidIffPath(schema: Schema, attribute: string, tag: TypeTag)
    ensures IsAttributeValid(schema, attribute, tag) <==> exists ps :: IsPath(schema, attribute, tag, ps)
  {
    if IsAttributeValid(schema, attribute, tag) {
      ValidGivesPath(schema, attribute, tag);
    }
    if exists ps :: IsPath(schema, attribute, tag, ps) {
      var ps :| IsPath(schema, attribute, tag, ps);
      PathGivesValid(schema, attribute, tag, ps);
    }
  }
}
