/** The System One adapter: a flat finite JSON schema as typed questions, and the answers as an object again. */
module SystemOne {
  import opened Basics

  datatype Json =
    | Null
    | Bool(b: bool)
    | Int(n: int)
    | Real(x: real)
    | Str(s: string)
    | Arr(items: seq<Json>)
    | Obj(fields: map<string, Json>)

  /** `value[key]`: null where there is nothing. */
  function At(v: Json, key: string): Json {
    if v.Obj? && key in v.fields then v.fields[key] else Null
  }

  function Get(v: Json, key: string): Option<Json> {
    if v.Obj? && key in v.fields then Some(v.fields[key]) else None
  }

  function AsReal(v: Json): Option<real> {
    match v
    case Int(n) => Some(n as real)
    case Real(x) => Some(x)
    case _ => None
  }

  function AsU64(v: Json): Option<nat> { if v.Int? && 0 <= v.n <= U64_MAX then Some(v.n) else None }

  datatype Message = Message(role: string, content: string)

  /** The parts of a completion request that the adapter reads. */
  datatype Request = Request(tools: bool, fnCall: bool, format: Option<Json>, messages: seq<Message>)

  // ---- option names ----

  function Decimal(n: nat): (s: string)
    ensures |s| > 0
  {
    if n < 10 then [('0' as nat + n) as char] else Decimal(n / 10) + [('0' as nat + n % 10) as char]
  }

  function OptionName(i: nat): string { "option_" + Decimal(i) }

  lemma {:induction false} DecimalInjective(m: nat, n: nat)
    requires Decimal(m) == Decimal(n)
    ensures m == n
  {
    assert Decimal(m)[|Decimal(m)| - 1] == ('0' as nat + m % 10) as char;
    assert Decimal(n)[|Decimal(n)| - 1] == ('0' as nat + n % 10) as char;
    if m >= 10 && n >= 10 {
      assert Decimal(m / 10) == Decimal(m)[..|Decimal(m)| - 1] == Decimal(n / 10);
      DecimalInjective(m / 10, n / 10);
    }
  }

  lemma OptionNameInjective(i: nat, j: nat)
    requires OptionName(i) == OptionName(j)
    ensures i == j
  {
    assert OptionName(i)[7..] == Decimal(i) && OptionName(j)[7..] == Decimal(j);
    DecimalInjective(i, j);
  }

  // ---- the questions ----

  function SchemaOf(req: Request): Option<Json> {
    if req.format.None? then None
    else
      var outer := Get(req.format.value, "json_schema");
      if outer.Some? then Get(outer.value, "schema") else None
  }

  function PropertiesOf(req: Request): map<string, Json> {
    var schema := SchemaOf(req);
    if schema.Some? && At(schema.value, "properties").Obj? then At(schema.value, "properties").fields else map[]
  }

  function RequiredOf(req: Request): seq<Json> {
    var schema := SchemaOf(req);
    if schema.Some? && At(schema.value, "required").Arr? then At(schema.value, "required").items else []
  }

  /** The outline of an acceptable schema, its properties aside. */
  predicate WellShaped(req: Request) {
    !req.tools && !req.fnCall && SchemaOf(req).Some? &&
    var schema := SchemaOf(req).value;
    At(schema, "properties").Obj? && At(schema, "type") == Str("object") && 1 <= |PropertiesOf(req)| <= 64 &&
    At(schema, "required").Arr? && |RequiredOf(req)| == |PropertiesOf(req)| &&
    forall k :: k in PropertiesOf(req) ==> Str(k) in RequiredOf(req)
  }

  predicate IsBoolean(property: Json) { At(property, "type") == Str("boolean") }

  function OptionsOf(property: Json): seq<Json> {
    if At(property, "enum").Arr? then At(property, "enum").items else []
  }

  /** A property that can be asked: a boolean, or one of 1 to 255 scalars. */
  predicate Askable(property: Json) {
    IsBoolean(property) ||
    (1 <= |OptionsOf(property)| <= 255 && forall v :: v in OptionsOf(property) ==> !v.Arr? && !v.Obj?)
  }

  predicate Accepts(req: Request) {
    WellShaped(req) && forall k :: k in PropertiesOf(req) ==> Askable(PropertiesOf(req)[k])
  }

  function Criteria(options: seq<Json>): map<string, Json> {
    if options == [] then map[]
    else
      var last := |options| - 1;
      Criteria(options[..last])[OptionName(last) := Obj(map["value" := options[last]])]
  }

  function Topic(instructions: string, name: string, property: Json): Json {
    Obj(map["task" := Str(instructions), "field" := Str(name), "meaning" := At(property, "description")])
  }

  const NOUL_CRITERIA := Obj(map["true" := Str("The proposition is true."),
                                 "false" := Str("The proposition is false or unsupported.")])

  function Question(instructions: string, name: string, property: Json): Json {
    if IsBoolean(property) then
      Obj(map["type" := Str("noul"), "instructions" := Topic(instructions, name, property),
              "criteria" := NOUL_CRITERIA])
    else
      Obj(map["type" := Str("choice"), "instructions" := Topic(instructions, name, property),
              "criteria" := Obj(Criteria(OptionsOf(property)))])
  }

  predicate Instructs(m: Message) { m.role == "system" || m.role == "developer" }

  function Joined(messages: seq<Message>): string {
    if messages == [] then ""
    else
      var rest := Joined(messages[1..]);
      if !Instructs(messages[0]) then rest
      else if exists m :: m in messages[1..] && Instructs(m) then messages[0].content + "\n" + rest
      else messages[0].content
  }

  function StateOf(messages: seq<Message>): seq<Json> {
    if messages == [] then []
    else
      (if Instructs(messages[0]) then []
       else [Obj(map["role" := Str(messages[0].role), "content" := Str(messages[0].content)])]) + StateOf(messages[1..])
  }

  function Payload(req: Request, model: string): Json {
    var instructions := Joined(req.messages);
    Obj(map["model" := Str(model), "state" := Arr(StateOf(req.messages)),
            "questions" := Obj(Questions(instructions, PropertiesOf(req)))])
  }

  method CollectCriteria(options: seq<Json>) returns (criteria: map<string, Json>)
    ensures criteria == Criteria(options)
  {
    criteria := map[];
    for i := 0 to |options|
      invariant criteria == Criteria(options[..i])
    {
      assert options[..i + 1][..i] == options[..i];
      criteria := criteria[OptionName(i) := Obj(map["value" := options[i]])];
    }
    assert options[..|options|] == options;
  }

  /** One question of the loop, or nothing when the property is free text or has too many options. */
  method Ask(instructions: string, name: string, property: Json) returns (q: Option<Json>)
    ensures q == if Askable(property) then Some(Question(instructions, name, property)) else None
  {
    if IsBoolean(property) {
      return Some(Obj(map["type" := Str("noul"), "instructions" := Topic(instructions, name, property),
                          "criteria" := NOUL_CRITERIA]));
    }
    if !At(property, "enum").Arr? {
      return None;
    }
    var options := At(property, "enum").items;
    if options == [] || |options| > 255 || exists v :: v in options && (v.Arr? || v.Obj?) {
      return None;
    }
    var criteria := CollectCriteria(options);
    q := Some(Obj(map["type" := Str("choice"), "instructions" := Topic(instructions, name, property),
                      "criteria" := Obj(criteria)]));
  }

  function Questions(instructions: string, props: map<string, Json>): map<string, Json> {
    map k | k in props :: Question(instructions, k, props[k])
  }

  /** The loop over the properties, in any order: all of them asked, or none. */
  method AskAll(instructions: string, props: map<string, Json>) returns (questions: Option<map<string, Json>>)
    ensures questions ==
            if forall k :: k in props ==> Askable(props[k]) then Some(Questions(instructions, props)) else None
  {
    hide Question, Askable;
    var asked: map<string, Json> := map[];
    var left := props.Keys;
    while left != {}
      invariant left <= props.Keys && asked.Keys == props.Keys - left
      invariant forall k :: k in asked ==> Askable(props[k]) && asked[k] == Question(instructions, k, props[k])
      decreases |left|
    {
      var name :| name in left;
      var q := Ask(instructions, name, props[name]);
      if q.None? {
        return None;
      }
      asked := asked[name := q.value];
      left := left - {name};
    }
    assert asked == Questions(instructions, props);
    questions := Some(asked);
  }

  /** The request translated, or refused. */
  method Translate(req: Request, model: string) returns (p: Option<Json>)
    ensures p == if Accepts(req) then Some(Payload(req, model)) else None
  {
    hide WellShaped, Askable, Questions, Joined, StateOf, PropertiesOf;
    if !WellShaped(req) {
      return None;
    }
    var instructions := Joined(req.messages);
    var questions := AskAll(instructions, PropertiesOf(req));
    if questions.None? {
      return None;
    }
    p := Some(Obj(map["model" := Str(model), "state" := Arr(StateOf(req.messages)),
                      "questions" := Obj(questions.value)]));
  }

  // ---- the required list ----

  predicate Distinct<T(==)>(s: seq<T>) { forall i, j :: 0 <= i < j < |s| ==> s[i] != s[j] }

  function Elements<T>(s: seq<T>): set<T> { set x | x in s }

  lemma {:induction false} ElementsCount<T>(s: seq<T>)
    ensures |Elements(s)| <= |s| && (|Elements(s)| == |s| ==> Distinct(s))
  {
    if s != [] {
      var rest := s[1..];
      ElementsCount(rest);
      assert Elements(s) == {s[0]} + Elements(rest);
      if s[0] in Elements(rest) {
        assert Elements(s) == Elements(rest);
      } else {
        assert |Elements(s)| == |Elements(rest)| + 1;
        forall i, j | |Elements(s)| == |s| && 0 <= i < j < |s|
          ensures s[i] != s[j]
        {
          if i > 0 {
            assert rest[i - 1] != rest[j - 1];
          } else {
            assert s[j] in rest;
          }
        }
      }
    }
  }

  lemma {:induction false} NamesCount(names: set<string>)
    ensures |set k | k in names :: Str(k)| == |names|
  {
    if names == {} {
      assert (set k | k in names :: Str(k)) == {};
    } else {
      var n :| n in names;
      NamesCount(names - {n});
      assert (set k | k in names :: Str(k)) == (set k | k in names - {n} :: Str(k)) + {Str(n)};
    }
  }

  /**
   An accepted `required` list names each property once and nothing else, although only lengths and membership are
   checked.
   */
  lemma RequiredIsPermutation(req: Request)
    requires WellShaped(req)
    ensures Distinct(RequiredOf(req))
    ensures forall v :: v in RequiredOf(req) <==> v.Str? && v.s in PropertiesOf(req)
  {
    var props, required := PropertiesOf(req), RequiredOf(req);
    var names := set k | k in props.Keys :: Str(k);
    NamesCount(props.Keys);
    ElementsCount(required);
    assert |props.Keys| == |props|;
    assert names <= Elements(required);
    SubsetOfSameSize(names, Elements(required));
    forall v
      ensures v in required <==> v.Str? && v.s in props
    {
      assert v in required <==> v in names;
    }
  }

  lemma {:induction false} SubsetOfSameSize<T>(s: set<T>, t: set<T>)
    requires s <= t && |t| <= |s|
    ensures s == t
  {
    if s != {} {
      var x :| x in s;
      SubsetOfSameSize(s - {x}, t - {x});
      assert s == s - {x} + {x} && t == t - {x} + {x};
    } else {
      assert t == {};
    }
  }

  // ---- the answers ----

  datatype Parsed = Parsed(values: map<string, Json>, prompt: nat, completion: nat, probabilities: map<string, Json>)

  /** The value one answer stands for. */
  function Decode(q: Json, a: Json): Option<Json> {
    if At(q, "type") == Str("noul") then
      var p := AsReal(At(a, "noul"));
      if p.Some? && 0.0 <= p.value <= 1.0 then Some(Bool(p.value >= 0.5)) else None
    else if At(a, "choice").Str? then
      var criterion := Get(At(q, "criteria"), At(a, "choice").s);
      if criterion.Some? then Get(criterion.value, "value") else None
    else None
  }

  function QuestionsOf(payload: Json): map<string, Json> {
    if At(payload, "questions").Obj? then At(payload, "questions").fields else map[]
  }

  function AnswersOf(body: Json): map<string, Json> {
    if At(body, "answers").Obj? then At(body, "answers").fields else map[]
  }

  predicate AllDecode(questions: map<string, Json>, answers: map<string, Json>) {
    forall k :: k in questions ==> k in answers && Decode(questions[k], answers[k]).Some?
  }

  function Values(questions: map<string, Json>, answers: map<string, Json>): map<string, Json>
    requires AllDecode(questions, answers)
  {
    map k | k in questions :: Decode(questions[k], answers[k]).value
  }

  predicate Answers(body: Json, payload: Json) {
    At(payload, "questions").Obj? && At(body, "answers").Obj? && AllDecode(QuestionsOf(payload), AnswersOf(body)) &&
    AsU64(At(At(body, "usage"), "input_tokens")).Some?
  }

  function Result(body: Json, payload: Json): Option<Parsed> {
    if !Answers(body, payload) then None
    else
      Some(Parsed(Values(QuestionsOf(payload), AnswersOf(body)),
                  AsU64(At(At(body, "usage"), "input_tokens")).value,
                  AsU64(At(At(body, "usage"), "output_tokens")).GetOr(0),
                  AnswersOf(body)))
  }

  method Parse(body: Json, payload: Json) returns (r: Option<Parsed>)
    ensures r == Result(body, payload)
  {
    if !At(payload, "questions").Obj? || !At(body, "answers").Obj? {
      return None;
    }
    var questions, answers := QuestionsOf(payload), AnswersOf(body);
    var values: map<string, Json> := map[];
    var left := questions.Keys;
    while left != {}
      invariant left <= questions.Keys && values.Keys == questions.Keys - left
      invariant forall k :: k in values ==> k in answers && Decode(questions[k], answers[k]) == Some(values[k])
      decreases |left|
    {
      hide Decode;
      var name :| name in left;
      if name !in answers {
        return None;
      }
      var value := Decode(questions[name], answers[name]);
      if value.None? {
        return None;
      }
      values := values[name := value.value];
      left := left - {name};
    }
    var prompt := AsU64(At(At(body, "usage"), "input_tokens"));
    if prompt.None? {
      return None;
    }
    assert values == Values(questions, answers);
    r := Some(Parsed(values, prompt.value, AsU64(At(At(body, "usage"), "output_tokens")).GetOr(0), answers));
  }

  // ---- what a provider is sent ----

  /** The messages that instruct, or the others, in their order. */
  function Chosen(messages: seq<Message>, instructing: bool): seq<Message> {
    if messages == [] then []
    else
      (if (messages[0].role in {"system", "developer"}) == instructing then [messages[0]] else []) +
      Chosen(messages[1..], instructing)
  }

  /** The contents one below the other. */
  function Lines(messages: seq<Message>): string {
    if messages == [] then ""
    else if |messages| == 1 then messages[0].content
    else messages[0].content + "\n" + Lines(messages[1..])
  }

  lemma {:induction false} ChosenIsEmpty(messages: seq<Message>)
    ensures Chosen(messages, true) == [] <==> forall m :: m in messages ==> !Instructs(m)
  {
    if messages != [] {
      ChosenIsEmpty(messages[1..]);
      assert messages[0] in messages && forall m :: m in messages <==> m == messages[0] || m in messages[1..];
      assert Instructs(messages[0]) ==> Chosen(messages, true)[0] == messages[0];
      assert !Instructs(messages[0]) ==> Chosen(messages, true) == [] + Chosen(messages[1..], true);
    }
  }

  lemma {:induction false} JoinedIsLines(messages: seq<Message>)
    ensures Joined(messages) == Lines(Chosen(messages, true))
  {
    if messages != [] {
      var m, rest := messages[0], Chosen(messages[1..], true);
      JoinedIsLines(messages[1..]);
      ChosenIsEmpty(messages[1..]);
      if Instructs(m) {
        assert ([m] + rest)[1..] == rest;
      } else {
        assert [] + rest == rest;
      }
    }
  }

  /** One message as a state item, read by key. */
  predicate Carries(item: Json, m: Message) {
    item.Obj? && item.fields.Keys == {"role", "content"} && At(item, "role") == Str(m.role) &&
    At(item, "content") == Str(m.content)
  }

  lemma {:induction false} StateCarries(messages: seq<Message>)
    ensures |StateOf(messages)| == |Chosen(messages, false)|
    ensures forall i :: 0 <= i < |StateOf(messages)| ==> Carries(StateOf(messages)[i], Chosen(messages, false)[i])
  {
    if messages != [] {
      StateCarries(messages[1..]);
    }
  }

  /** One property as a question, read by key. */
  predicate Poses(q: Json, task: string, name: string, property: Json) {
    At(At(q, "instructions"), "task") == Str(task) && At(At(q, "instructions"), "field") == Str(name) &&
    At(At(q, "instructions"), "meaning") == At(property, "description") &&
    if At(property, "type") == Str("boolean") then
      At(q, "type") == Str("noul") && At(At(q, "criteria"), "true") == Str("The proposition is true.") &&
      At(At(q, "criteria"), "false") == Str("The proposition is false or unsupported.")
    else
      At(q, "type") == Str("choice") && At(property, "enum").Arr? &&
      forall i :: 0 <= i < |At(property, "enum").items| ==>
        At(At(At(q, "criteria"), OptionName(i)), "value") == At(property, "enum").items[i]
  }

  lemma QuestionPoses(instructions: string, name: string, property: Json)
    requires Askable(property)
    ensures Poses(Question(instructions, name, property), instructions, name, property)
  {
    if !IsBoolean(property) {
      forall i | 0 <= i < |OptionsOf(property)|
        ensures At(At(Obj(Criteria(OptionsOf(property))), OptionName(i)), "value") == OptionsOf(property)[i]
      {
        CriteriaAt(OptionsOf(property), i);
      }
    }
    hide Criteria, OptionName;
  }

  /**
   The payload of an accepted request, read by key: every message that does not instruct, in order, with its role
   and content; and every property of the schema as a question under the instructions joined line by line.
   */
  lemma PayloadReads(req: Request, model: string)
    requires Accepts(req)
    ensures var p, spoken := Payload(req, model), Chosen(req.messages, false);
            p.Obj? && p.fields.Keys == {"model", "state", "questions"} && At(p, "model") == Str(model) &&
            At(p, "state").Arr? && |At(p, "state").items| == |spoken| &&
            forall i :: 0 <= i < |spoken| ==> Carries(At(p, "state").items[i], spoken[i])
    ensures var questions := At(Payload(req, model), "questions");
            questions.Obj? && questions.fields.Keys == PropertiesOf(req).Keys &&
            forall name :: name in PropertiesOf(req) ==>
              Poses(At(questions, name), Lines(Chosen(req.messages, true)), name, PropertiesOf(req)[name])
  {
    StateCarries(req.messages);
    JoinedIsLines(req.messages);
    var props, task := PropertiesOf(req), Joined(req.messages);
    hide Question, Poses, Askable, PropertiesOf, Joined, StateOf, Carries, WellShaped;
    forall name | name in props
      ensures Poses(At(At(Payload(req, model), "questions"), name), task, name, props[name])
    {
      QuestionPoses(task, name, props[name]);
      assert Questions(task, props)[name] == Question(task, name, props[name]);
    }
  }

  /** Option names count from zero in decimal digits. */
  lemma OptionsAreNumbered(i: nat)
    ensures i < 10 ==> OptionName(i) == "option_" + [('0' as nat + i) as char]
    ensures i >= 10 ==> OptionName(i) == OptionName(i / 10) + [('0' as nat + i % 10) as char]
  {
  }

  // ---- which schemas are accepted ----

  function SchemaFormat(kind: string, props: map<string, Json>, required: seq<Json>): Json {
    Obj(map["json_schema" :=
      Obj(map["schema" := Obj(map["type" := Str(kind), "properties" := Obj(props), "required" := Arr(required)])])])
  }

  /** A boolean, or a choice of 1 to 255 values that are neither arrays nor objects. */
  predicate IsFinite(property: Json) {
    At(property, "type") == Str("boolean") ||
    (At(property, "enum").Arr? && 1 <= |At(property, "enum").items| < 256 &&
     forall v :: v in At(property, "enum").items ==> !v.Arr? && !v.Obj?)
  }

  /** A request for a schema is accepted exactly without tools and for a flat, finite and wholly required schema. */
  lemma SchemaIsAccepted(req: Request, kind: string, props: map<string, Json>, required: seq<Json>)
    requires req.format == Some(SchemaFormat(kind, props, required))
    ensures Accepts(req) <==>
            !req.tools && !req.fnCall && kind == "object" && 1 <= |props| < 65 && |required| == |props| &&
            forall k :: k in props ==> Str(k) in required && IsFinite(props[k])
  {
    SchemaParts(req, kind, props, required);
    hide SchemaOf, SchemaFormat, PropertiesOf, RequiredOf;
    forall k | k in props
      ensures Askable(props[k]) == IsFinite(props[k])
    {
    }
    hide Askable, IsFinite;
  }

  lemma SchemaParts(req: Request, kind: string, props: map<string, Json>, required: seq<Json>)
    requires req.format == Some(SchemaFormat(kind, props, required))
    ensures SchemaOf(req).Some? && At(SchemaOf(req).value, "type") == Str(kind)
    ensures At(SchemaOf(req).value, "properties") == Obj(props) && PropertiesOf(req) == props
    ensures At(SchemaOf(req).value, "required") == Arr(required) && RequiredOf(req) == required
  {
  }

  // ---- what an answer decodes to ----

  lemma {:induction false} CriteriaNames(options: seq<Json>, choice: string)
    ensures choice in Criteria(options) ==>
              exists i :: 0 <= i < |options| && choice == OptionName(i) &&
                          Criteria(options)[choice] == Obj(map["value" := options[i]])
  {
    if options != [] {
      var last := |options| - 1;
      CriteriaNames(options[..last], choice);
    }
  }

  lemma {:induction false} CriteriaAt(options: seq<Json>, i: nat)
    requires i < |options|
    ensures OptionName(i) in Criteria(options) && Criteria(options)[OptionName(i)] == Obj(map["value" := options[i]])
  {
    var last := |options| - 1;
    if i < last {
      CriteriaAt(options[..last], i);
      if OptionName(i) == OptionName(last) {
        OptionNameInjective(i, last);
      }
    }
  }

  /** A valid answer to a property: a probability, or the index of an option. */
  datatype Answer = Noul(p: real) | Pick(i: nat)

  predicate Fits(answer: Answer, property: Json) {
    match answer
    case Noul(p) => IsBoolean(property) && 0.0 <= p <= 1.0
    case Pick(i) => !IsBoolean(property) && i < |OptionsOf(property)|
  }

  function Sent(answer: Answer): Json {
    match answer
    case Noul(p) => Obj(map["noul" := Real(p)])
    case Pick(i) => Obj(map["choice" := Str(OptionName(i))])
  }

  function Meaning(answer: Answer, property: Json): Json
    requires Fits(answer, property)
  {
    match answer
    case Noul(p) => Bool(p >= 0.5)
    case Pick(i) => OptionsOf(property)[i]
  }

  predicate AllFit(chosen: map<string, Answer>, props: map<string, Json>) {
    chosen.Keys == props.Keys && forall k :: k in chosen ==> Fits(chosen[k], props[k])
  }

  function Meanings(chosen: map<string, Answer>, props: map<string, Json>): map<string, Json>
    requires AllFit(chosen, props)
  {
    map k | k in chosen :: Meaning(chosen[k], props[k])
  }

  function AllSent(chosen: map<string, Answer>): map<string, Json> { map k | k in chosen :: Sent(chosen[k]) }

  /** `option_i` decodes to the i-th option, and a probability to whether it reaches one half. */
  lemma SentDecodes(instructions: string, name: string, property: Json, answer: Answer)
    requires Fits(answer, property)
    ensures Decode(Question(instructions, name, property), Sent(answer)) == Some(Meaning(answer, property))
  {
    if answer.Pick? {
      CriteriaAt(OptionsOf(property), answer.i);
    }
  }

  /** Whatever decodes is a boolean for a boolean property and one of the options, the one named, for the others. */
  lemma DecodedIsOffered(instructions: string, name: string, property: Json, a: Json)
    requires Decode(Question(instructions, name, property), a).Some?
    ensures var v := Decode(Question(instructions, name, property), a).value;
            if IsBoolean(property) then v.Bool?
            else exists i :: 0 <= i < |OptionsOf(property)| &&
                             At(a, "choice") == Str(OptionName(i)) && v == OptionsOf(property)[i]
  {
    if !IsBoolean(property) {
      CriteriaNames(OptionsOf(property), At(a, "choice").s);
    }
  }

  /**
   Every accepted answer to an accepted schema decodes to an object of exactly the schema's properties, each within
   its domain.
   */
  lemma DecodedObjectFitsSchema(req: Request, model: string, body: Json)
    requires Accepts(req) && Result(body, Payload(req, model)).Some?
    ensures var values, props := Result(body, Payload(req, model)).value.values, PropertiesOf(req);
            values.Keys == props.Keys &&
            forall k :: k in props ==> if IsBoolean(props[k]) then values[k].Bool? else values[k] in OptionsOf(props[k])
  {
    var values, props := Result(body, Payload(req, model)).value.values, PropertiesOf(req);
    forall k | k in props
      ensures if IsBoolean(props[k]) then values[k].Bool? else values[k] in OptionsOf(props[k])
    {
      DecodedIsOffered(Joined(req.messages), k, props[k], AnswersOf(body)[k]);
    }
  }

  lemma AllSentDecode(instructions: string, props: map<string, Json>, chosen: map<string, Answer>)
    requires AllFit(chosen, props)
    ensures AllDecode(Questions(instructions, props), AllSent(chosen))
    ensures Values(Questions(instructions, props), AllSent(chosen)) == Meanings(chosen, props)
  {
    forall k | k in props
      ensures Decode(Questions(instructions, props)[k], AllSent(chosen)[k]) == Some(Meaning(chosen[k], props[k]))
    {
      SentDecodes(instructions, k, props[k], chosen[k]);
    }
    hide Decode, Question, Sent, Meaning;
    assert AllDecode(Questions(instructions, props), AllSent(chosen));
    assert Values(Questions(instructions, props), AllSent(chosen)) == Meanings(chosen, props);
  }

  /** A native answer body. */
  function Body(answers: map<string, Json>, prompt: nat, completion: nat): Json {
    Obj(map["answers" := Obj(answers),
            "usage" := Obj(map["input_tokens" := Int(prompt), "output_tokens" := Int(completion)])])
  }

  lemma BodyParts(answers: map<string, Json>, prompt: nat, completion: nat)
    requires prompt <= U64_MAX && completion <= U64_MAX
    ensures var body := Body(answers, prompt, completion);
            At(body, "answers") == Obj(answers) && AsU64(At(At(body, "usage"), "input_tokens")) == Some(prompt) &&
            AsU64(At(At(body, "usage"), "output_tokens")) == Some(completion)
  {
  }

  lemma PayloadParts(req: Request, model: string)
    ensures At(Payload(req, model), "questions") == Obj(Questions(Joined(req.messages), PropertiesOf(req)))
    ensures Get(Payload(req, model), "model").Some?
  {
    hide Questions, StateOf, Joined, PropertiesOf;
  }

  /** The wrapping of the request moves everything but the model under `input`, and happens for one family only. */
  lemma WrappingMovesAll(brand: string, native: Json)
    requires Get(native, "model").Some?
    ensures var wire := WirePayload(brand, native);
            if Family(brand) != "cloudflare" then wire == native
            else
              wire.Obj? && wire.fields.Keys == {"model", "input"} && At(wire, "model") == At(native, "model") &&
              Get(At(wire, "input"), "model") == None &&
              forall k :: k != "model" ==> Get(At(wire, "input"), k) == Get(native, k)
  {
  }

  lemma WireParts(brand: string, native: Json)
    requires Family(brand) == "cloudflare" && Get(native, "model").Some?
    ensures At(At(WirePayload(brand, native), "input"), "questions") == At(native, "questions")
  {
  }

  /** Every choice of valid answers, sent back, decodes to exactly what was chosen. */
  lemma AnswersRoundTrip(req: Request, model: string, chosen: map<string, Answer>, prompt: nat, completion: nat)
    requires Accepts(req) && AllFit(chosen, PropertiesOf(req)) && prompt <= U64_MAX && completion <= U64_MAX
    ensures Result(Body(AllSent(chosen), prompt, completion), Payload(req, model)) ==
            Some(Parsed(Meanings(chosen, PropertiesOf(req)), prompt, completion, AllSent(chosen)))
  {
    PayloadParts(req, model);
    BodyParts(AllSent(chosen), prompt, completion);
    AllSentDecode(Joined(req.messages), PropertiesOf(req), chosen);
    hide Payload, Body, PropertiesOf, Joined, AsU64, At, AllDecode, AllSent, Questions, Values, Meanings;
  }

  // ---- the Cloudflare wrapping ----

  /** The part of a brand name before its first dash. */
  function Family(brand: string): string {
    if brand == "" || brand[0] == '-' then "" else [brand[0]] + Family(brand[1..])
  }

  function WirePayload(brand: string, native: Json): Json {
    if Family(brand) != "cloudflare" || !native.Obj? || "model" !in native.fields then native
    else Obj(map["model" := native.fields["model"], "input" := Obj(native.fields - {"model"})])
  }

  /** The native result inside the envelopes of the run interface. */
  function Unwrapped(body: Json): Option<Json> {
    if Get(body, "success") == Some(Bool(false)) then None
    else
      var result := Get(body, "result").GetOr(body);
      var state := Get(result, "state");
      if state.None? then Some(result)
      else if state.value != Str("Completed") then None
      else Get(result, "result")
  }

  function ParseWire(brand: string, body: Json, payload: Json): Option<Parsed> {
    if Family(brand) == "cloudflare" then
      if Unwrapped(body).Some? then Result(Unwrapped(body).value, At(payload, "input")) else None
    else Result(body, payload)
  }

  function Completed(body: Json): Json { Obj(map["state" := Str("Completed"), "result" := body]) }

  function Enveloped(body: Json): Json { Obj(map["success" := Bool(true), "result" := body]) }

  /** A native body carries neither of the envelope's fields. */
  predicate Native(body: Json) {
    Get(body, "success") != Some(Bool(false)) && Get(body, "result").None? && Get(body, "state").None?
  }

  lemma {:induction false} FamilyOfPlain(brand: string)
    requires '-' !in brand
    ensures Family(brand) == brand
  {
    if brand != "" {
      FamilyOfPlain(brand[1..]);
    }
  }

  lemma {:induction false} FamilyOfVariant(brand: string, suffix: string)
    requires '-' !in brand
    ensures Family(brand + "-" + suffix) == brand
  {
    var s := brand + "-" + suffix;
    if brand == "" {
      assert s[0] == '-';
    } else {
      assert s[1..] == brand[1..] + "-" + suffix && s[0] == brand[0];
      FamilyOfVariant(brand[1..], suffix);
    }
  }

  /** Wrapping the request and unwrapping any of the answer's three forms gives what the native exchange gives. */
  lemma WrappingIsNeutral(brand: string, req: Request, model: string, body: Json)
    requires Family(brand) == "cloudflare"
    ensures var wire := WirePayload(brand, Payload(req, model));
            var native := Result(body, Payload(req, model));
            ParseWire(brand, Enveloped(Completed(body)), wire) == native &&
            (Get(body, "state").None? ==> ParseWire(brand, Enveloped(body), wire) == native) &&
            (Native(body) ==> ParseWire(brand, body, wire) == native)
  {
    hide Payload, Family, Result, WirePayload, Unwrapped, Enveloped, Completed, Native, At, Get, Questions;
    PayloadParts(req, model);
    EnvelopesOpen(body);
    WireParts(brand, Payload(req, model));
    ResultReadsQuestions(body, At(WirePayload(brand, Payload(req, model)), "input"), Payload(req, model));
  }

  /** A wrapped answer that failed, or that has not completed, is refused whatever it carries. */
  lemma UnfinishedIsRefused(brand: string, body: Json, payload: Json)
    requires Family(brand) == "cloudflare"
    requires Get(body, "success") == Some(Bool(false)) ||
             (var result := if Get(body, "result").Some? then Get(body, "result").value else body;
              Get(result, "state").Some? && Get(result, "state") != Some(Str("Completed")))
    ensures ParseWire(brand, body, payload) == None
  {
  }

  lemma ResultReadsQuestions(body: Json, p: Json, q: Json)
    requires At(p, "questions") == At(q, "questions")
    ensures Result(body, p) == Result(body, q)
  {
    hide Decode;
  }

  lemma EnvelopesOpen(body: Json)
    ensures Unwrapped(Enveloped(Completed(body))) == Some(body)
    ensures Get(body, "state").None? ==> Unwrapped(Enveloped(body)) == Some(body)
    ensures Native(body) ==> Unwrapped(body) == Some(body)
  {
  }
}
