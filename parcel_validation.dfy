/** The request-body schemas of the parcel routes: `createParcelValidation` and
    `updateParcelStatusValidation`. Parsing either returns the body, or the list of
    issues in the order the schema declares its fields. */
module ParcelValidation {
  import opened Common

  datatype ReceiverBody = ReceiverBody(
    name: Option<string>,
    phone: Option<string>,
    address: Option<string>,
    userId: Option<string>)

  datatype CreateParcelBody = CreateParcelBody(
    receiver: Option<ReceiverBody>,
    parcelType: Option<string>,
    weight: Option<real>,
    deliveryAddress: Option<string>)

  datatype StatusBody = StatusBody(
    status: Option<string>,
    location: Option<string>,
    note: Option<string>)

  /** The schema fields that can be rejected. */
  datatype Field =
    | Receiver | ReceiverName | ReceiverPhone | ReceiverAddress
    | ParcelType | Weight | DeliveryAddress
    | Status

  /** A rejected field and the message reported for it. */
  datatype Issue = Issue(field: Field, message: string)

  const NAME_MIN_LENGTH: nat := 2
  const PHONE_MIN_LENGTH: nat := 10
  const ADDRESS_MIN_LENGTH: nat := 5
  const PARCEL_TYPE_MIN_LENGTH: nat := 2
  const DELIVERY_ADDRESS_MIN_LENGTH: nat := 5

  /** The message for a required field that is absent. */
  const REQUIRED := "Required"

  /** The messages of the field checks, for a field that is present but fails. */
  const NAME_MESSAGE := "Receiver name must be at least 2 characters"
  const PHONE_MESSAGE := "Valid phone number required"
  const ADDRESS_MESSAGE := "Address must be at least 5 characters"
  const PARCEL_TYPE_MESSAGE := "Parcel type is required"
  const WEIGHT_MESSAGE := "Weight must be positive"
  const DELIVERY_ADDRESS_MESSAGE := "Delivery address must be at least 5 characters"

  /** The message a field's own check reports; the receiver object and the status
      have no check beyond being there. */
  function CheckMessage(f: Field): string
  {
    match f
    case ReceiverName => NAME_MESSAGE
    case ReceiverPhone => PHONE_MESSAGE
    case ReceiverAddress => ADDRESS_MESSAGE
    case ParcelType => PARCEL_TYPE_MESSAGE
    case Weight => WEIGHT_MESSAGE
    case DeliveryAddress => DELIVERY_ADDRESS_MESSAGE
    case _ => REQUIRED
  }

  /** The message of a failing field: `Required` when it is absent, its check's
      message otherwise. */
  function ExpectedMessage(present: bool, f: Field): string
  {
    if present then CheckMessage(f) else REQUIRED
  }

  /** The position of each field in the schema declarations. */
  function Rank(f: Field): nat
  {
    match f
    case Receiver => 0
    case ReceiverName => 1
    case ReceiverPhone => 2
    case ReceiverAddress => 3
    case ParcelType => 4
    case Weight => 5
    case DeliveryAddress => 6
    case Status => 7
  }

  /** The receiver object carries a value for field `f`. */
  predicate ReceiverFieldPresent(receiver: Option<ReceiverBody>, f: Field)
  {
    match f
    case Receiver => receiver.Some?
    case ReceiverName => receiver.Some? && receiver.value.name.Some?
    case ReceiverPhone => receiver.Some? && receiver.value.phone.Some?
    case ReceiverAddress => receiver.Some? && receiver.value.address.Some?
    case _ => false
  }

  /** The create body carries a value for field `f`. */
  predicate CreateFieldPresent(b: CreateParcelBody, f: Field)
  {
    match f
    case ParcelType => b.parcelType.Some?
    case Weight => b.weight.Some?
    case DeliveryAddress => b.deliveryAddress.Some?
    case Status => false
    case _ => ReceiverFieldPresent(b.receiver, f)
  }

  /** Issues come in the order the schema declares their fields, each field once. */
  predicate InSchemaOrder(issues: seq<Issue>)
  {
    forall i, j :: 0 <= i < j < |issues| ==> Rank(issues[i].field) < Rank(issues[j].field)
  }

  /** Every issue's field has a rank in `[lo, hi)`. */
  predicate RanksWithin(issues: seq<Issue>, lo: nat, hi: nat)
  {
    forall i :: 0 <= i < |issues| ==> lo <= Rank(issues[i].field) < hi
  }

  /** Each issue carries the message `ExpectedMessage` gives it, the field counting as
      present as the receiver object or the create body says. */
  predicate ReceiverMessagesFit(receiver: Option<ReceiverBody>, issues: seq<Issue>)
  {
    forall i :: 0 <= i < |issues| ==>
      issues[i].message == ExpectedMessage(ReceiverFieldPresent(receiver, issues[i].field), issues[i].field)
  }

  predicate CreateMessagesFit(b: CreateParcelBody, issues: seq<Issue>)
  {
    forall i :: 0 <= i < |issues| ==>
      issues[i].message == ExpectedMessage(CreateFieldPresent(b, issues[i].field), issues[i].field)
  }

  lemma ReceiverMessagesFitConcat(receiver: Option<ReceiverBody>, a: seq<Issue>, c: seq<Issue>)
    requires ReceiverMessagesFit(receiver, a) && ReceiverMessagesFit(receiver, c)
    ensures ReceiverMessagesFit(receiver, a + c)
  {
    forall i | 0 <= i < |a + c|
      ensures (a + c)[i].message == ExpectedMessage(ReceiverFieldPresent(receiver, (a + c)[i].field), (a + c)[i].field)
    {
      if i < |a| { assert (a + c)[i] == a[i]; } else { assert (a + c)[i] == c[i - |a|]; }
    }
  }

  lemma CreateMessagesFitConcat(b: CreateParcelBody, a: seq<Issue>, c: seq<Issue>)
    requires CreateMessagesFit(b, a) && CreateMessagesFit(b, c)
    ensures CreateMessagesFit(b, a + c)
  {
    forall i | 0 <= i < |a + c|
      ensures (a + c)[i].message == ExpectedMessage(CreateFieldPresent(b, (a + c)[i].field), (a + c)[i].field)
    {
      if i < |a| { assert (a + c)[i] == a[i]; } else { assert (a + c)[i] == c[i - |a|]; }
    }
  }

  /** The receiver's issues read the same against the whole body. */
  lemma ReceiverMessagesFitBody(b: CreateParcelBody, issues: seq<Issue>)
    requires ReceiverMessagesFit(b.receiver, issues) && RanksWithin(issues, 0, 4)
    ensures CreateMessagesFit(b, issues)
  {
    forall i | 0 <= i < |issues|
      ensures issues[i].message == ExpectedMessage(CreateFieldPresent(b, issues[i].field), issues[i].field)
    {
      assert Rank(issues[i].field) < 4;
      assert CreateFieldPresent(b, issues[i].field) == ReceiverFieldPresent(b.receiver, issues[i].field);
    }
  }

  lemma InSchemaOrderConcat(a: seq<Issue>, c: seq<Issue>, k: nat)
    requires InSchemaOrder(a) && InSchemaOrder(c)
    requires RanksWithin(a, 0, k) && RanksWithin(c, k, 8)
    ensures InSchemaOrder(a + c) && RanksWithin(a + c, 0, 8)
  {
    forall i, j | 0 <= i < j < |a + c| ensures Rank((a + c)[i].field) < Rank((a + c)[j].field) {
      if j < |a| {
        assert (a + c)[i] == a[i] && (a + c)[j] == a[j];
      } else if i >= |a| {
        assert (a + c)[i] == c[i - |a|] && (a + c)[j] == c[j - |a|];
      } else {
        assert (a + c)[i] == a[i] && (a + c)[j] == c[j - |a|];
      }
    }
  }

  /** `z.string().min(n)`: present and at least `n` characters long. */
  predicate MinLength(s: Option<string>, n: nat)
  {
    s.Some? && |s.value| >= n
  }

  /** `z.number().positive()`: present and strictly greater than zero. */
  predicate Positive(w: Option<real>)
  {
    w.Some? && w.value > 0.0
  }

  /** Whether a create body passes the check of field `f`. The receiver's own fields
      are checked only when the receiver object is there. */
  predicate CreateFieldOk(b: CreateParcelBody, f: Field)
  {
    match f
    case Receiver => b.receiver.Some?
    case ReceiverName => b.receiver.None? || MinLength(b.receiver.value.name, NAME_MIN_LENGTH)
    case ReceiverPhone => b.receiver.None? || MinLength(b.receiver.value.phone, PHONE_MIN_LENGTH)
    case ReceiverAddress => b.receiver.None? || MinLength(b.receiver.value.address, ADDRESS_MIN_LENGTH)
    case ParcelType => MinLength(b.parcelType, PARCEL_TYPE_MIN_LENGTH)
    case Weight => Positive(b.weight)
    case DeliveryAddress => MinLength(b.deliveryAddress, DELIVERY_ADDRESS_MIN_LENGTH)
    case Status => true
  }

  /** A create body is acceptable: the receiver is there with a long-enough name, phone
      and address, and the parcel type, weight and delivery address are valid. The
      receiver's user id is not mentioned: it is optional. */
  predicate AcceptsCreateParcel(b: CreateParcelBody)
  {
    && b.receiver.Some?
    && MinLength(b.receiver.value.name, NAME_MIN_LENGTH)
    && MinLength(b.receiver.value.phone, PHONE_MIN_LENGTH)
    && MinLength(b.receiver.value.address, ADDRESS_MIN_LENGTH)
    && MinLength(b.parcelType, PARCEL_TYPE_MIN_LENGTH)
    && Positive(b.weight)
    && MinLength(b.deliveryAddress, DELIVERY_ADDRESS_MIN_LENGTH)
  }

  /** The fields an issue list reports. */
  function FieldsOf(issues: seq<Issue>): set<Field>
  {
    set i | 0 <= i < |issues| :: issues[i].field
  }

  lemma FieldsOfConcat(a: seq<Issue>, b: seq<Issue>)
    ensures FieldsOf(a + b) == FieldsOf(a) + FieldsOf(b)
  {
    forall f | f in FieldsOf(a + b) ensures f in FieldsOf(a) + FieldsOf(b) {
      var i :| 0 <= i < |a + b| && (a + b)[i].field == f;
      if i >= |a| { assert b[i - |a|].field == f; }
    }
    forall f | f in FieldsOf(a) + FieldsOf(b) ensures f in FieldsOf(a + b) {
      if f in FieldsOf(a) {
        var i :| 0 <= i < |a| && a[i].field == f;
        assert (a + b)[i].field == f;
      } else {
        var i :| 0 <= i < |b| && b[i].field == f;
        assert (a + b)[|a| + i].field == f;
      }
    }
  }

  lemma FieldsOfSingleton(x: Issue)
    ensures FieldsOf([x]) == {x.field}
  {
    assert [x][0].field == x.field;
  }

  /** The issue for a minimum-length string field: `Required` when absent, the
      field's own message when too short, none otherwise. */
  function StringIssues(f: Field, s: Option<string>, n: nat, tooShort: string): (r: seq<Issue>)
    ensures r == [] <==> MinLength(s, n)
    ensures r != [] ==> r == [Issue(f, if s.None? then REQUIRED else tooShort)]
    ensures FieldsOf(r) == if MinLength(s, n) then {} else {f}
  {
    if s.None? then FieldsOfSingleton(Issue(f, REQUIRED)); [Issue(f, REQUIRED)]
    else if |s.value| < n then FieldsOfSingleton(Issue(f, tooShort)); [Issue(f, tooShort)]
    else []
  }

  /** The issue for the weight: `Required` when absent, its message when not
      positive, none otherwise. */
  function WeightIssues(w: Option<real>): (r: seq<Issue>)
    ensures r == [] <==> Positive(w)
    ensures r != [] ==> r == [Issue(Weight, ExpectedMessage(w.Some?, Weight))]
    ensures FieldsOf(r) == if Positive(w) then {} else {Weight}
    ensures InSchemaOrder(r) && RanksWithin(r, 5, 6)
  {
    match w
    case None => FieldsOfSingleton(Issue(Weight, REQUIRED)); [Issue(Weight, REQUIRED)]
    case Some(x) =>
      if x > 0.0 then []
      else FieldsOfSingleton(Issue(Weight, WEIGHT_MESSAGE)); [Issue(Weight, WEIGHT_MESSAGE)]
  }

  /** Field `f` of the receiver object fails its check: the object itself when it is
      missing, otherwise a name, phone or address that is absent or too short. */
  predicate ReceiverFieldFails(receiver: Option<ReceiverBody>, f: Field)
  {
    match f
    case Receiver => receiver.None?
    case ReceiverName => receiver.Some? && !MinLength(receiver.value.name, NAME_MIN_LENGTH)
    case ReceiverPhone => receiver.Some? && !MinLength(receiver.value.phone, PHONE_MIN_LENGTH)
    case ReceiverAddress => receiver.Some? && !MinLength(receiver.value.address, ADDRESS_MIN_LENGTH)
    case _ => false
  }

  /** The issues of the receiver object: `Required` when it is absent, otherwise
      those of its name, phone and address. */
  function ReceiverIssues(receiver: Option<ReceiverBody>): (r: seq<Issue>)
    ensures forall f :: f in FieldsOf(r) <==> ReceiverFieldFails(receiver, f)
  {
    match receiver
    case None => FieldsOfSingleton(Issue(Receiver, REQUIRED)); [Issue(Receiver, REQUIRED)]
    case Some(rc) =>
      var nameIssues := StringIssues(ReceiverName, rc.name, NAME_MIN_LENGTH, NAME_MESSAGE);
      var phoneIssues := StringIssues(ReceiverPhone, rc.phone, PHONE_MIN_LENGTH, PHONE_MESSAGE);
      var addressIssues := StringIssues(ReceiverAddress, rc.address, ADDRESS_MIN_LENGTH, ADDRESS_MESSAGE);
      FieldsOfConcat(nameIssues, phoneIssues);
      FieldsOfConcat(nameIssues + phoneIssues, addressIssues);
      nameIssues + phoneIssues + addressIssues
  }

  /** The issues of a create body: exactly the failing fields, in schema order, each
      with `Required` when absent and its check's message otherwise. */
  function CreateParcelIssues(b: CreateParcelBody): (r: seq<Issue>)
    ensures forall f :: f in FieldsOf(r) <==> !CreateFieldOk(b, f)
  {
    var receiverIssues := ReceiverIssues(b.receiver);
    var weightIssues := WeightIssues(b.weight);
    var typeIssues := StringIssues(ParcelType, b.parcelType, PARCEL_TYPE_MIN_LENGTH, PARCEL_TYPE_MESSAGE);
    var addressIssues := StringIssues(DeliveryAddress, b.deliveryAddress, DELIVERY_ADDRESS_MIN_LENGTH,
                                      DELIVERY_ADDRESS_MESSAGE);
    FieldsOfConcat(receiverIssues, typeIssues);
    FieldsOfConcat(receiverIssues + typeIssues, weightIssues);
    FieldsOfConcat(receiverIssues + typeIssues + weightIssues, addressIssues);
    receiverIssues + typeIssues + weightIssues + addressIssues
  }

  /** A string field gives at most one issue, so its issues are ordered and all of
      its own rank. */
  lemma StringIssuesRanked(f: Field, s: Option<string>, n: nat, tooShort: string)
    ensures InSchemaOrder(StringIssues(f, s, n, tooShort))
    ensures RanksWithin(StringIssues(f, s, n, tooShort), Rank(f), Rank(f) + 1)
  {
  }

  /** One string field's issue carries the message `ExpectedMessage` gives it. */
  lemma StringIssuesMessageFits(receiver: Option<ReceiverBody>, f: Field, s: Option<string>, n: nat, tooShort: string)
    requires ReceiverFieldPresent(receiver, f) == s.Some? && CheckMessage(f) == tooShort
    ensures ReceiverMessagesFit(receiver, StringIssues(f, s, n, tooShort))
  {
  }

  /** The receiver's issues come in schema order, each with `Required` when the value
      is absent and its check's message otherwise. */
  lemma ReceiverIssuesMessagesInOrder(receiver: Option<ReceiverBody>)
    ensures ReceiverMessagesFit(receiver, ReceiverIssues(receiver))
    ensures InSchemaOrder(ReceiverIssues(receiver)) && RanksWithin(ReceiverIssues(receiver), 0, 4)
  {
    ReceiverIssuesOrdered(receiver);
    ReceiverIssuesMessages(receiver);
  }

  lemma ReceiverIssuesOrdered(receiver: Option<ReceiverBody>)
    ensures InSchemaOrder(ReceiverIssues(receiver)) && RanksWithin(ReceiverIssues(receiver), 0, 4)
  {
    if receiver.Some? {
      var rc := receiver.value;
      var nameIssues := StringIssues(ReceiverName, rc.name, NAME_MIN_LENGTH, NAME_MESSAGE);
      var phoneIssues := StringIssues(ReceiverPhone, rc.phone, PHONE_MIN_LENGTH, PHONE_MESSAGE);
      var addressIssues := StringIssues(ReceiverAddress, rc.address, ADDRESS_MIN_LENGTH, ADDRESS_MESSAGE);
      assert ReceiverIssues(receiver) == nameIssues + phoneIssues + addressIssues;
      StringIssuesRanked(ReceiverName, rc.name, NAME_MIN_LENGTH, NAME_MESSAGE);
      StringIssuesRanked(ReceiverPhone, rc.phone, PHONE_MIN_LENGTH, PHONE_MESSAGE);
      StringIssuesRanked(ReceiverAddress, rc.address, ADDRESS_MIN_LENGTH, ADDRESS_MESSAGE);
      InSchemaOrderConcat(nameIssues, phoneIssues, 2);
      InSchemaOrderConcat(nameIssues + phoneIssues, addressIssues, 3);
    }
  }

  lemma ReceiverIssuesMessages(receiver: Option<ReceiverBody>)
    ensures ReceiverMessagesFit(receiver, ReceiverIssues(receiver))
  {
    if receiver.Some? {
      var rc := receiver.value;
      var nameIssues := StringIssues(ReceiverName, rc.name, NAME_MIN_LENGTH, NAME_MESSAGE);
      var phoneIssues := StringIssues(ReceiverPhone, rc.phone, PHONE_MIN_LENGTH, PHONE_MESSAGE);
      var addressIssues := StringIssues(ReceiverAddress, rc.address, ADDRESS_MIN_LENGTH, ADDRESS_MESSAGE);
      assert ReceiverIssues(receiver) == nameIssues + phoneIssues + addressIssues;
      StringIssuesMessageFits(receiver, ReceiverName, rc.name, NAME_MIN_LENGTH, NAME_MESSAGE);
      StringIssuesMessageFits(receiver, ReceiverPhone, rc.phone, PHONE_MIN_LENGTH, PHONE_MESSAGE);
      StringIssuesMessageFits(receiver, ReceiverAddress, rc.address, ADDRESS_MIN_LENGTH, ADDRESS_MESSAGE);
      ReceiverMessagesFitConcat(receiver, nameIssues, phoneIssues);
      ReceiverMessagesFitConcat(receiver, nameIssues + phoneIssues, addressIssues);
    }
  }

  /** The issues of a create body come in schema order, each with `Required` when the
      value is absent and its check's message otherwise. */
  lemma CreateParcelIssuesMessagesInOrder(b: CreateParcelBody)
    ensures CreateMessagesFit(b, CreateParcelIssues(b))
    ensures InSchemaOrder(CreateParcelIssues(b))
  {
    var receiverIssues := ReceiverIssues(b.receiver);
    var weightIssues := WeightIssues(b.weight);
    var typeIssues := StringIssues(ParcelType, b.parcelType, PARCEL_TYPE_MIN_LENGTH, PARCEL_TYPE_MESSAGE);
    var addressIssues := StringIssues(DeliveryAddress, b.deliveryAddress, DELIVERY_ADDRESS_MIN_LENGTH,
                                      DELIVERY_ADDRESS_MESSAGE);
    assert CreateParcelIssues(b) == receiverIssues + typeIssues + weightIssues + addressIssues;
    ReceiverIssuesMessagesInOrder(b.receiver);
    StringIssuesRanked(ParcelType, b.parcelType, PARCEL_TYPE_MIN_LENGTH, PARCEL_TYPE_MESSAGE);
    StringIssuesRanked(DeliveryAddress, b.deliveryAddress, DELIVERY_ADDRESS_MIN_LENGTH, DELIVERY_ADDRESS_MESSAGE);
    InSchemaOrderConcat(receiverIssues, typeIssues, 4);
    InSchemaOrderConcat(receiverIssues + typeIssues, weightIssues, 5);
    InSchemaOrderConcat(receiverIssues + typeIssues + weightIssues, addressIssues, 6);
    ReceiverMessagesFitBody(b, receiverIssues);
    assert CreateMessagesFit(b, typeIssues);
    assert CreateMessagesFit(b, weightIssues);
    assert CreateMessagesFit(b, addressIssues);
    CreateMessagesFitConcat(b, receiverIssues, typeIssues);
    CreateMessagesFitConcat(b, receiverIssues + typeIssues, weightIssues);
    CreateMessagesFitConcat(b, receiverIssues + typeIssues + weightIssues, addressIssues);
  }

  /** `createParcelValidation`: the body itself when every field check passes,
      otherwise every failing field with its message. */
  function ParseCreateParcel(b: CreateParcelBody): (r: Result<CreateParcelBody, seq<Issue>>)
    ensures r.Success? <==> AcceptsCreateParcel(b)
    ensures r.Success? ==> r.value == b
    ensures r.Failure? ==> r.error != [] && forall f :: f in FieldsOf(r.error) <==> !CreateFieldOk(b, f)
    ensures r.Failure? ==> r.error == CreateParcelIssues(b)
  {
    var issues := CreateParcelIssues(b);
    if issues == [] then
      assert forall f :: CreateFieldOk(b, f);
      Success(b)
    else
      Failure(issues)
  }

  /** `updateParcelStatusValidation`: only the status is required, and any string is
      accepted as a status; location and note are optional. */
  function ParseStatusUpdate(b: StatusBody): (r: Result<StatusBody, seq<Issue>>)
    ensures r.Success? <==> b.status.Some?
    ensures r.Success? ==> r.value == b
    ensures r.Failure? ==> r.error == [Issue(Status, REQUIRED)]
  {
    if b.status.Some? then Success(b) else Failure([Issue(Status, REQUIRED)])
  }

  /** A receiver name of fewer than two characters is rejected with its message. */
  lemma ShortNameRejected(b: CreateParcelBody)
    requires b.receiver.Some? && b.receiver.value.name.Some?
    requires |b.receiver.value.name.value| < NAME_MIN_LENGTH
    ensures Issue(ReceiverName, NAME_MESSAGE) in CreateParcelIssues(b)
    ensures ParseCreateParcel(b).Failure?
  {
  }

  /** Only the phone's length is checked: any ten characters, digits or not, do. */
  lemma PhoneContentUnchecked(b: CreateParcelBody, phone: string)
    requires b.receiver.Some? && |phone| >= PHONE_MIN_LENGTH
    ensures CreateFieldOk(b.(receiver := Some(b.receiver.value.(phone := Some(phone)))), ReceiverPhone)
  {
  }

  /** A zero or negative weight is rejected with its message. */
  lemma NonPositiveWeightRejected(b: CreateParcelBody)
    requires b.weight.Some? && b.weight.value <= 0.0
    ensures Issue(Weight, WEIGHT_MESSAGE) in CreateParcelIssues(b)
    ensures ParseCreateParcel(b).Failure?
  {
  }

  /** The receiver's user id never decides acceptance, present or absent. */
  lemma ReceiverUserIdOptional(b: CreateParcelBody, userId: Option<string>)
    requires b.receiver.Some?
    ensures ParseCreateParcel(b.(receiver := Some(b.receiver.value.(userId := userId)))).Success?
        <==> ParseCreateParcel(b).Success?
  {
  }

  /** Location and note never decide acceptance of a status update, and the status
      may be any string. */
  lemma StatusUpdateAcceptsAnyStatus(s: string, location: Option<string>, note: Option<string>)
    ensures ParseStatusUpdate(StatusBody(Some(s), location, note)).Success?
  {
  }
}
