/** How the first-match union of input items treats output messages and message items. */
module ResponseInput {
  import opened Basics
  import opened JsonValues
  import opened Codec
  import opened ResponseItems
  import opened ResponseTheorems

  /** The alternative at `index`, if it decodes, or else what the others give. */
  function OrElse(shape: Shape, index: nat, j: Json, others: Option<Val>): Option<Val> {
    match Decode(shape, j) case Some(v) => Some(OptionV(index, v)) case None => others
  }

  lemma OneFirst(a: Shape, rest: Shapes, index: nat, j: Json)
    ensures DecodeFirst(Alternative(a, rest), index, j) == OrElse(a, index, j, DecodeFirst(rest, index + 1, j))
  {
  }

  lemma ThreeFirst(a: Shape, b: Shape, c: Shape, rest: Shapes, index: nat, j: Json)
    ensures DecodeFirst(Alternative(a, Alternative(b, Alternative(c, rest))), index, j)
         == OrElse(a, index, j, OrElse(b, index + 1, j, OrElse(c, index + 2, j, DecodeFirst(rest, index + 3, j))))
  {
    OneFirst(c, rest, index + 2, j);
    OneFirst(b, Alternative(c, rest), index + 1, j);
    OneFirst(a, Alternative(b, Alternative(c, rest)), index, j);
  }

  /** Alternatives from `index` on are numbered from there. */
  lemma {:induction false} IndexAtLeast(options: Shapes, index: nat, j: Json)
    ensures var r := DecodeFirst(options, index, j); r.Some? ==> r.value.OptionV? && r.value.index >= index
    decreases options
  {
    if options.Alternative? { IndexAtLeast(options.rest, index + 1, j); }
  }


  predicate ReadsAs(index: nat, read: Option<Val>) { read.Some? && read.value.OptionV? && read.value.index == index }

  /** A union of six alternatives and others, one after the other. */
  lemma InOrder(a: Shape, b: Shape, c: Shape, d: Shape, e: Shape, f: Shape, later: Shapes, j: Json)
    ensures Decode(FirstOf(Alternative(a, Alternative(b, Alternative(c,
      Alternative(d, Alternative(e, Alternative(f, later))))))), j)
         == OrElse(a, 0, j, OrElse(b, 1, j, OrElse(c, 2, j, OrElse(d, 3, j,
           OrElse(e, 4, j, OrElse(f, 5, j, DecodeFirst(later, 6, j)))))))
  {
    ThreeFirst(a, b, c, Alternative(d, Alternative(e, Alternative(f, later))), 0, j);
    ThreeFirst(d, e, f, later, 3, j);
  }

  /** Only the third alternative is numbered 2. */
  lemma ThirdChosen(a: Shape, b: Shape, c: Shape, d: Shape, e: Shape, f: Shape, later: Shapes, j: Json)
    ensures ReadsAs(2, Decode(FirstOf(Alternative(a, Alternative(b,
      Alternative(c, Alternative(d, Alternative(e, Alternative(f, later))))))), j))
       <==> Decode(a, j).None? && Decode(b, j).None? && Decode(c, j).Some?
  {
    InOrder(a, b, c, d, e, f, later, j);
    IndexAtLeast(later, 6, j);
  }

  /** What is chosen when the first, fourth and fifth alternative refuse, and the third only takes what the second
      takes. */
  lemma SecondOrSixth(a: Shape, b: Shape, c: Shape, d: Shape, e: Shape, f: Shape, later: Shapes, j: Json, v: Val)
    requires Decode(a, j).None? && Decode(d, j).None? && Decode(e, j).None? && Decode(f, j) == Some(v)
    requires Decode(c, j).Some? ==> Decode(b, j).Some?
    ensures Decode(FirstOf(Alternative(a, Alternative(b, Alternative(c,
      Alternative(d, Alternative(e, Alternative(f, later))))))), j)
         == Some(match Decode(b, j) case Some(w) => OptionV(1, w) case None => OptionV(5, v))
  {
    InOrder(a, b, c, d, e, f, later, j);
  }

  // ---------- message items ----------

  /** What both kinds of input message do with a role and with parts. */
  lemma RoleAndParts(j: Json)
    ensures Decode(Choice(ITEM_ROLES), j).Some? ==> Decode(Choice(EASY_ROLES), j).Some?
    ensures Decode(Vector(InputContent()), j).Some? ==> Decode(EasyContent(), j).Some?
  {
    if Decode(Vector(InputContent()), j).Some? {
      OneFirst(Text, Alternative(Vector(InputContent()), NoShapes), 0, j);
      OneFirst(Vector(InputContent()), NoShapes, 1, j);
    }
  }

  /** Any two messages whose fields are read in these ways. */
  lemma EasyCovers(kind: Shape, roles: Shape, easyRoles: Shape, parts: Shape, easyParts: Shape, fs: Fields)
    requires forall j :: Decode(roles, j).Some? ==> Decode(easyRoles, j).Some?
    requires forall j :: Decode(parts, j).Some? ==> Decode(easyParts, j).Some?
    requires DecodeFields(Opt("id", Text, Opt("type", kind, Need("role", roles, Need("content", parts, NoMembers)))),
      fs).Some?
    ensures DecodeFields(Opt("type", kind, Need("role", easyRoles, Need("content", easyParts, NoMembers))), fs).Some?
  {
    var item := Opt("type", kind, Need("role", roles, Need("content", parts, NoMembers)));
    assert DecodeFields(item, fs).Some?;
    assert DecodeFields(item.rest, fs).Some?;
    assert DecodeFields(item.rest.rest, fs).Some?;
    var easy := Need("role", easyRoles, Need("content", easyParts, NoMembers));
    assert DecodeFields(easy.rest, fs).Some?;
    assert DecodeFields(easy, fs).Some?;
  }

  /** Whatever object decodes as a message item already decodes as an easy message. */
  lemma EasyFirst(fs: Fields)
    requires DecodeFields(MessageItem(), fs).Some?
    ensures DecodeFields(EasyMessage(), fs).Some?
  {
    forall j ensures Decode(Choice(ITEM_ROLES), j).Some? ==> Decode(Choice(EASY_ROLES), j).Some? { RoleAndParts(j); }
    forall j ensures Decode(Vector(InputContent()), j).Some? ==> Decode(EasyContent(), j).Some? { RoleAndParts(j); }
    EasyCovers(Choice(["message"]), Choice(ITEM_ROLES), Choice(EASY_ROLES), Vector(InputContent()), EasyContent(), fs);
  }

  function Length(items: List): nat { if items.Nil? then 0 else 1 + Length(items.tail) }

  function Count(fields: Members): nat { if fields.NoMembers? then 0 else 1 + Count(fields.rest) }

  predicate NoDefaults(fields: Members) { fields.Member? ==> !fields.missing.Defaulted? && NoDefaults(fields.rest) }

  /** Without defaults, the array form has one element for each field. */
  lemma {:induction false} ItemsLength(fields: Members, items: List)
    requires NoDefaults(fields) && DecodeItems(fields, items).Some?
    ensures Length(items) == Count(fields)
    decreases fields
  {
    if fields.Member? { ItemsLength(fields.rest, items.tail); }
  }

  /** Neither of the two earlier alternatives takes the array form of a message item. */
  lemma ItemArray(items: List)
    requires DecodeItems(MessageItem(), items).Some?
    ensures DecodeItems(Reasoning(), items) == None && DecodeItems(EasyMessage(), items) == None
  {
    var m, r := MessageItem(), Reasoning();
    assert NoDefaults(m) && Count(m) == 4 && NoDefaults(EasyMessage()) && Count(EasyMessage()) == 3;
    ItemsLength(m, items);
    if DecodeItems(EasyMessage(), items).Some? { ItemsLength(EasyMessage(), items); }
    assert DecodeItems(m.rest, items.tail).Some?;
    assert DecodeItems(m.rest.rest, items.tail.tail).Some?;
    var role := items.tail.tail.head;
    assert role.String? || role.Object?;
    assert Decode(Vector(TaggedText("reasoning_text")), role) == None;
    assert DecodeItems(r.rest.rest, items.tail.tail) == None;
    assert DecodeItems(r.rest, items.tail) == None;
  }

  /** A message item is read only from the array form, and then always: every object that would do is
      taken by the easy message before it. */
  lemma MessageItemExact(later: Shapes, j: Json)
    ensures ReadsAs(2, Decode(FirstOf(InputItems(later)), j)) <==> j.Array? && DecodeItems(MessageItem(), j.items).Some?
  {
    ThirdChosen(Record(Reasoning()), Record(EasyMessage()), Record(MessageItem()), Record(FunctionToolCall()),
      Record(FunctionCallOutput()), Record(OutputMessage()), later, j);
    match j
    case Object(fs) =>
      if DecodeFields(MessageItem(), fs).Some? { EasyFirst(fs); }
    case Array(items) =>
      if DecodeItems(MessageItem(), items).Some? { ItemArray(items); }
    case _ =>
  }

  /** An array that is read as a message item. */
  lemma MessageItemFromArray(later: Shapes)
    ensures ReadsAs(2, Decode(FirstOf(InputItems(later)), Array(Cons(Null,
      Cons(Null, Cons(String("user"), Cons(Array(Nil), Nil)))))))
  {
    var content := Cons(Array(Nil), Nil);
    var role := Cons(String("user"), content);
    var items := Cons(Null, Cons(Null, role));
    var m := MessageItem();
    assert DecodeItems(m.rest.rest.rest, content) == Some(Then(VectorV(NoVals), NoVals));
    assert DecodeItems(m.rest.rest, role).Some?;
    assert DecodeItems(m.rest, Cons(Null, role)).Some?;
    MessageItemExact(later, Array(items));
  }

  // ---------- output messages sent back as input ----------

  lemma InputTags()
    ensures Tags(Reasoning()) == ["reasoning"] && Tags(FunctionToolCall()) == ["function_call"]
    ensures Tags(FunctionCallOutput()) == ["function_call_output"]
  {
  }

  /** Alternatives with another mandatory tag refuse a message. */
  lemma OthersRefuse(fs: Fields)
    requires Get(fs, "type") == Some(String("message"))
    ensures Decode(Record(Reasoning()), Object(fs)) == None && Decode(Record(FunctionToolCall()), Object(fs)) == None
    ensures Decode(Record(FunctionCallOutput()), Object(fs)) == None
  {
    InputTags();
    WrongTag(Reasoning(), fs);
    WrongTag(FunctionToolCall(), fs);
    WrongTag(FunctionCallOutput(), fs);
  }

  /** The easy message that an empty output message is read as. */
  function Reduced(role: string): Val {
    RecordV(Then(SomeV(ChoiceV("message")), Then(ChoiceV(role), Then(OptionV(1, VectorV(NoVals)), NoVals))))
  }

  lemma MessageItself(vals: Vals)
    requires TypedFields(OutputMessage(), vals)
    ensures Decode(Record(OutputMessage()), Object(EncodeFields(OutputMessage(), vals))) == Some(RecordV(vals))
  {
    MessageSound();
    RoundTrip(Record(OutputMessage()), RecordV(vals));
  }

  lemma RecordFromObject(fields: Members, fs: Fields)
    ensures Decode(Record(fields), Object(fs)) == (match DecodeFields(fields, fs)
      case Some(vs) => Some(RecordV(vs)) case None => None)
  {
  }

  lemma ItemIsEasy(fs: Fields)
    ensures Decode(Record(MessageItem()), Object(fs)).Some? ==> Decode(Record(EasyMessage()), Object(fs)).Some?
  {
    RecordFromObject(MessageItem(), fs);
    RecordFromObject(EasyMessage(), fs);
    if DecodeFields(MessageItem(), fs).Some? { EasyFirst(fs); }
  }

  lemma MessageAsEasy(fs: Fields, role: string, content: Vals)
    requires TypedAll(OutputContent(), content) && Get(fs, "type") == Some(String("message"))
    requires Get(fs, "role") == Some(String(role))
    requires Get(fs, "content") == Some(Array(EncodeAll(OutputContent(), content)))
    ensures Decode(Record(EasyMessage()), Object(fs))
         == (if role in EASY_ROLES && content.NoVals? then Some(Reduced(role)) else None)
  {
    EasyTakes(fs, role, content);
    RecordFromObject(EasyMessage(), fs);
  }

  /** An output message sent back as input is read as itself exactly when it has content or a role outside
      the four; otherwise it comes back as an easy message, without its id, status and phase. */
  lemma MessageAsInput(later: Shapes, vals: Vals)
    requires TypedFields(OutputMessage(), vals)
    ensures vals.Then? && vals.tail.Then? && vals.tail.tail.Then? && vals.tail.tail.tail.Then?
    ensures vals.tail.tail.head.TextV? && vals.tail.tail.tail.head.VectorV?
    ensures var role, content := vals.tail.tail.head.s, vals.tail.tail.tail.head.items;
      var read := Decode(FirstOf(InputItems(later)), Object(EncodeFields(OutputMessage(), vals)));
      && (read == Some(OptionV(5, RecordV(vals))) <==> content.Then? || role !in EASY_ROLES)
      && (read != Some(OptionV(5, RecordV(vals))) ==> read == Some(OptionV(1, Reduced(role))))
  {
    MessageFields(vals);
    var fs := EncodeFields(OutputMessage(), vals);
    var role, content := vals.tail.tail.head.s, vals.tail.tail.tail.head.items;
    OthersRefuse(fs);
    MessageAsEasy(fs, role, content);
    ItemIsEasy(fs);
    MessageItself(vals);
    SecondOrSixth(Record(Reasoning()), Record(EasyMessage()), Record(MessageItem()), Record(FunctionToolCall()),
      Record(FunctionCallOutput()), Record(OutputMessage()), later, Object(fs), RecordV(vals));
  }
}
