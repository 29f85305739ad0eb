/**
 * The helpers that read values out of Notion page properties.
 *
 * A property is the JSON object Notion returns; optional chaining
 * (`prop?.select?.name`) becomes an `Option` at each step, and `||`
 * falls through falsy values (absent, empty string, zero) as in JavaScript.
 */
module NotionData {
  import opened Common

  /** One rich-text fragment: its `plain_text` and its `text.content`, either possibly absent. */
  datatype RichText = RichText(plainText: Option<string>, textContent: Option<string>)

  /** What `extractText` is handed: nothing, something that is not an array, or an array of fragments. */
  datatype RichTextInput = NoRichText | NotAnArray | Fragments(items: seq<RichText>)

  datatype SelectOption = SelectOption(name: Option<string>)
  datatype SelectProperty = SelectProperty(select: Option<SelectOption>)

  datatype NamedItem = NamedItem(name: string)
  datatype MultiSelectProperty = MultiSelectProperty(multiSelect: Option<seq<NamedItem>>)

  datatype NumberProperty = NumberProperty(number: Option<int>)

  datatype EmailProperty = EmailProperty(email: Option<string>)

  datatype RelationItem = RelationItem(id: string)
  datatype RelationProperty = RelationProperty(relation: Option<seq<RelationItem>>)

  predicate Truthy(s: Option<string>)
  {
    s.Some? && s.value != ""
  }

  /** `rt.plain_text || rt.text?.content || ''`. */
  function FragmentText(rt: RichText): (r: string)
    ensures Truthy(rt.plainText) ==> r == rt.plainText.value
    ensures !Truthy(rt.plainText) && Truthy(rt.textContent) ==> r == rt.textContent.value
    ensures !Truthy(rt.plainText) && !Truthy(rt.textContent) ==> r == ""
  {
    if Truthy(rt.plainText) then rt.plainText.value
    else if Truthy(rt.textContent) then rt.textContent.value
    else ""
  }

  /** The fragments' texts joined; the empty string for anything but an array. */
  function ExtractText(input: RichTextInput): (r: string)
    ensures !input.Fragments? ==> r == ""
    ensures input.Fragments? && input.items == [] ==> r == ""
  {
    if !input.Fragments? then "" else Concat(MapSeq(FragmentText, input.items))
  }

  /** Splitting the fragments anywhere splits the extracted text at the same place. */
  lemma ExtractTextAppend(a: seq<RichText>, b: seq<RichText>)
    ensures ExtractText(Fragments(a + b)) == ExtractText(Fragments(a)) + ExtractText(Fragments(b))
  {
    assert MapSeq(FragmentText, a + b) == MapSeq(FragmentText, a) + MapSeq(FragmentText, b);
    ConcatAppend(MapSeq(FragmentText, a), MapSeq(FragmentText, b));
  }

  /** A single fragment contributes exactly its own text. */
  lemma ExtractTextSingle(rt: RichText)
    ensures ExtractText(Fragments([rt])) == FragmentText(rt)
  {
    assert MapSeq(FragmentText, [rt]) == [FragmentText(rt)];
    assert Concat([FragmentText(rt)]) == FragmentText(rt) + Concat([]);
  }

  /** `selectProperty?.select?.name || ''`. */
  function ExtractSelect(p: Option<SelectProperty>): (r: string)
    ensures r == "" <==> p.None? || p.value.select.None? || !Truthy(p.value.select.value.name)
    ensures r != "" ==> r == p.value.select.value.name.value
  {
    if p.Some? && p.value.select.Some? && Truthy(p.value.select.value.name)
    then p.value.select.value.name.value else ""
  }

  /** The option names in order, or nothing when the property or its list is absent. */
  function ExtractMultiSelect(p: Option<MultiSelectProperty>): (r: seq<string>)
    ensures p.None? || p.value.multiSelect.None? ==> r == []
    ensures p.Some? && p.value.multiSelect.Some? ==>
      |r| == |p.value.multiSelect.value|
      && forall i :: 0 <= i < |r| ==> r[i] == p.value.multiSelect.value[i].name
  {
    if p.None? || p.value.multiSelect.None? then []
    else MapSeq((item: NamedItem) => item.name, p.value.multiSelect.value)
  }

  /** `numberProperty?.number || undefined`: zero and absence both give nothing. */
  function ExtractNumber(p: Option<NumberProperty>): (r: Option<int>)
    ensures r.None? <==> p.None? || p.value.number.None? || p.value.number.value == 0
    ensures r.Some? ==> r.value != 0 && r == p.value.number
  {
    if p.Some? && p.value.number.Some? && p.value.number.value != 0 then p.value.number else None
  }

  /** `emailProperty?.email || ''`. */
  function ExtractEmail(p: Option<EmailProperty>): (r: string)
    ensures r == "" <==> p.None? || !Truthy(p.value.email)
    ensures r != "" ==> r == p.value.email.value
  {
    if p.Some? && Truthy(p.value.email) then p.value.email.value else ""
  }

  /** The related page ids in order, or nothing when the property or its list is absent. */
  function ExtractRelation(p: Option<RelationProperty>): (r: seq<string>)
    ensures p.None? || p.value.relation.None? ==> r == []
    ensures p.Some? && p.value.relation.Some? ==>
      |r| == |p.value.relation.value|
      && forall i :: 0 <= i < |r| ==> r[i] == p.value.relation.value[i].id
  {
    if p.None? || p.value.relation.None? then []
    else MapSeq((item: RelationItem) => item.id, p.value.relation.value)
  }
}
