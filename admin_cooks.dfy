/** Cook registration on the admin cooks page (`AdminCooks`): the form's
    validation schema, the pre-fill from an existing staff profile, the
    allowed-order-type checkboxes, the account a new cook signs up with,
    and the badge colour of an assignment's cook status. */
module AdminCooks {
  import opened Common

  const IndoorEvents := "indoor_events"
  const CloudKitchen := "cloud_kitchen"
  const Homemade := "homemade"
  const EmailDomain := "@pennycarbs.local"

  /** The values `orderTypes` offers as checkboxes. */
  function OrderTypes(): seq<string> { [IndoorEvents, CloudKitchen, Homemade] }

  datatype CookForm = CookForm(
    staffId: string,
    kitchenName: string,
    mobileNumber: string,
    password: string,
    panchayatId: string,
    allowedOrderTypes: seq<string>)

  datatype StaffProfile = StaffProfile(id: string, userId: string, name: string, mobileNumber: string, panchayatId: Option<string>)

  // ----------------------------------------------------------- validation

  /** One failed rule of `cookSchema`; zod reports a message for each. */
  datatype Issue = KitchenNameShort | MobileTooShort | MobileTooLong | MobileNotDigits | PasswordShort | NoPanchayat | NoOrderType

  function IssueMessage(i: Issue): string {
    match i
    case KitchenNameShort => "Kitchen name is required"
    case MobileTooShort => "Mobile number must be 10 digits"
    case MobileTooLong => "Mobile number must be 10 digits"
    case MobileNotDigits => "Mobile number must contain only digits"
    case PasswordShort => "Password must be at least 6 characters"
    case NoPanchayat => "Please select a panchayat"
    case NoOrderType => "Select at least one order type"
  }

  /** Whether the form breaks the rule behind an issue; `/^\d+$/` fails on
      the empty string. */
  predicate Fails(f: CookForm, i: Issue) {
    match i
    case KitchenNameShort => |f.kitchenName| < 2
    case MobileTooShort => |f.mobileNumber| < 10
    case MobileTooLong => |f.mobileNumber| > 10
    case MobileNotDigits => f.mobileNumber == "" || !AllDigits(f.mobileNumber)
    case PasswordShort => |f.password| < 6
    case NoPanchayat => f.panchayatId == ""
    case NoOrderType => f.allowedOrderTypes == []
  }

  /** The schema's rules in declaration order. */
  function AllIssues(): seq<Issue> {
    [KitchenNameShort, MobileTooShort, MobileTooLong, MobileNotDigits, PasswordShort, NoPanchayat, NoOrderType]
  }

  /** The list names every rule. */
  lemma {:induction false} EveryRuleListed()
    ensures forall i :: i in AllIssues()
  {
    forall i: Issue ensures i in AllIssues() {
      match i {
        case KitchenNameShort => assert AllIssues()[0] == i;
        case MobileTooShort => assert AllIssues()[1] == i;
        case MobileTooLong => assert AllIssues()[2] == i;
        case MobileNotDigits => assert AllIssues()[3] == i;
        case PasswordShort => assert AllIssues()[4] == i;
        case NoPanchayat => assert AllIssues()[5] == i;
        case NoOrderType => assert AllIssues()[6] == i;
      }
    }
  }

  /** No rule is listed twice. */
  lemma {:induction false} RulesDistinct()
    ensures NoDuplicates(AllIssues())
  {
    var r := AllIssues();
    forall i, j | 0 <= i < j < |r| ensures r[i] != r[j] {
      assert r[i].KitchenNameShort? ==> i == 0;
      assert r[i].MobileTooShort? ==> i == 1;
      assert r[i].MobileTooLong? ==> i == 2;
      assert r[i].MobileNotDigits? ==> i == 3;
      assert r[i].PasswordShort? ==> i == 4;
      assert r[i].NoPanchayat? ==> i == 5;
      assert r[i].NoOrderType? ==> i == 6;
    }
  }

  function FailedAmong(f: CookForm, rules: seq<Issue>): (issues: seq<Issue>)
    ensures forall i :: i in issues <==> i in rules && Fails(f, i)
    ensures NoDuplicates(rules) ==> NoDuplicates(issues)
    decreases |rules|
  {
    if rules == [] then []
    else
      var rest := FailedAmong(f, rules[1..]);
      assert forall i :: i in rules <==> i == rules[0] || i in rules[1..];
      assert NoDuplicates(rules) ==> rules[0] !in rules[1..] && NoDuplicates(rules[1..]) by {
        if NoDuplicates(rules) {
          forall k | 0 <= k < |rules[1..]| ensures rules[1..][k] != rules[0] { assert rules[1..][k] == rules[k + 1]; }
        }
      }
      if Fails(f, rules[0]) then [rules[0]] + rest else rest
  }

  /** The issues zod reports for a form, in the schema's order, each once. */
  function Issues(f: CookForm): (issues: seq<Issue>)
    ensures forall i :: i in issues <==> Fails(f, i)
    ensures NoDuplicates(issues)
  {
    EveryRuleListed();
    RulesDistinct();
    FailedAmong(f, AllIssues())
  }

  predicate IsValid(f: CookForm) { Issues(f) == [] }

  /** The form passes exactly when the kitchen name has two characters, the
      mobile number is ten digits, the password six characters, and a
      panchayat and an order type are chosen. */
  lemma {:induction false} ValidIff(f: CookForm)
    ensures IsValid(f) <==>
      && |f.kitchenName| >= 2
      && |f.mobileNumber| == 10 && AllDigits(f.mobileNumber)
      && |f.password| >= 6
      && f.panchayatId != ""
      && f.allowedOrderTypes != []
  {
    var issues := Issues(f);
    if issues != [] {
      assert issues[0] in issues;
    }
  }

  /** The form's starting values: everything empty, and all three order
      types checked. */
  function DefaultForm(): (f: CookForm)
    ensures f.allowedOrderTypes == OrderTypes()
    ensures !IsValid(f)
  {
    var f := CookForm("", "", "", "", "", OrderTypes());
    assert KitchenNameShort in Issues(f);
    f
  }

  // ---------------------------------------------------------- order types

  /** One checkbox change: checking appends, unchecking removes every
      occurrence. */
  function CheckOrderType(current: seq<string>, value: string, checked: bool): (r: seq<string>)
    ensures checked ==> r == current + [value]
    ensures !checked ==> value !in r
    ensures forall t :: t != value ==> (t in r <==> t in current)
  {
    if checked then current + [value] else RemoveAll(current, value)
  }

  /** Unchecking a box takes only its own type away: the other types stay
      in their order. */
  lemma {:induction false} UncheckKeepsOthers(before: seq<string>, value: string, after: seq<string>)
    requires value !in before && value !in after
    ensures CheckOrderType(before + [value] + after, value, false) == before + after
  {
    RemoveAllConcat(before + [value], after, value);
    RemoveAllConcat(before, [value], value);
    assert RemoveAll([value], value) == [] by {
      assert [value][..0] == [];
    }
    RemoveAbsent(before, value);
    RemoveAbsent(after, value);
  }

  /** Unchecking one box of the order types that remain takes its type off
      the front. */
  lemma {:induction false} UncheckFirst(value: string, after: seq<string>)
    requires value !in after
    ensures CheckOrderType([value] + after, value, false) == after
  {
    UncheckKeepsOthers([], value, after);
    assert [] + [value] + after == [value] + after;
  }

  /** Unchecking all three default boxes leaves no order type, which the
      schema refuses. */
  lemma {:induction false} UncheckAllIsInvalid(f: CookForm)
    requires f.allowedOrderTypes == OrderTypes()
    ensures
      var t := CheckOrderType(CheckOrderType(CheckOrderType(f.allowedOrderTypes, IndoorEvents, false), CloudKitchen, false), Homemade, false);
      t == [] && !IsValid(f.(allowedOrderTypes := t))
  {
    assert IndoorEvents[0] != CloudKitchen[0] && IndoorEvents[0] != Homemade[0] && CloudKitchen[0] != Homemade[0];
    UncheckFirst(IndoorEvents, [CloudKitchen, Homemade]);
    assert [IndoorEvents] + [CloudKitchen, Homemade] == f.allowedOrderTypes;
    UncheckFirst(CloudKitchen, [Homemade]);
    assert [CloudKitchen] + [Homemade] == [CloudKitchen, Homemade];
    UncheckFirst(Homemade, []);
    assert [Homemade] + [] == [Homemade];
    assert NoOrderType in Issues(f.(allowedOrderTypes := []));
  }

  // ------------------------------------------------------ staff pre-fill

  /** `staffProfiles?.find(s => s.id === staffId)`. */
  function FindStaff(profiles: Option<seq<StaffProfile>>, staffId: string): (r: Option<StaffProfile>)
    ensures r.Some? ==> profiles.Some? && r.value in profiles.value && r.value.id == staffId
    ensures r.None? <==> profiles.None? || forall i :: 0 <= i < |profiles.value| ==> profiles.value[i].id != staffId
    decreases if profiles.Some? then |profiles.value| else 0
  {
    if profiles.None? || profiles.value == [] then None
    else if profiles.value[0].id == staffId then Some(profiles.value[0])
    else
      var r := FindStaff(Some(profiles.value[1..]), staffId);
      assert r.None? ==> forall i :: 0 <= i < |profiles.value| ==> profiles.value[i].id != staffId by {
        if r.None? {
          forall i | 0 <= i < |profiles.value| ensures profiles.value[i].id != staffId {
            if i > 0 { assert profiles.value[i] == profiles.value[1..][i - 1]; }
          }
        }
      }
      r
  }

  function KitchenNameFor(staffName: string): (k: string)
    ensures IsPrefix(staffName, k) && |k| == |staffName| + 10
    ensures k[|staffName|..] == "'s Kitchen"
  {
    staffName + "'s Kitchen"
  }

  /** The registration dialog's state: the form values and the staff member
      picked in the selector. */
  class Registration {
    var form: CookForm
    var selectedStaff: Option<StaffProfile>

    constructor ()
      ensures form == DefaultForm() && selectedStaff.None?
    {
      form := DefaultForm();
      selectedStaff := None;
    }

    /** `handleStaffSelect`: a known profile fills in the kitchen name, the
        mobile number and, when it has one, the panchayat; any other id
        (the "new user" entry included) clears the selection and the staff
        id. */
    method HandleStaffSelect(profiles: Option<seq<StaffProfile>>, staffId: string)
      modifies this
      ensures selectedStaff == FindStaff(profiles, staffId)
      ensures selectedStaff.Some? ==>
        var s := selectedStaff.value;
        form == old(form).(staffId := staffId, kitchenName := KitchenNameFor(s.name), mobileNumber := s.mobileNumber,
                           panchayatId := if s.panchayatId.Some? && s.panchayatId.value != "" then s.panchayatId.value else old(form).panchayatId)
      ensures selectedStaff.None? ==> form == old(form).(staffId := "")
    {
      var staff := FindStaff(profiles, staffId);
      if staff.Some? {
        selectedStaff := staff;
        form := form.(staffId := staffId);
        form := form.(kitchenName := KitchenNameFor(staff.value.name));
        form := form.(mobileNumber := staff.value.mobileNumber);
        if staff.value.panchayatId.Some? && staff.value.panchayatId.value != "" {
          form := form.(panchayatId := staff.value.panchayatId.value);
        }
      } else {
        selectedStaff := None;
        form := form.(staffId := "");
      }
    }

    /** The checkbox handler of one order type. */
    method SetOrderTypeChecked(value: string, checked: bool)
      modifies this
      ensures form == old(form).(allowedOrderTypes := CheckOrderType(old(form).allowedOrderTypes, value, checked))
      ensures selectedStaff == old(selectedStaff)
    {
      form := form.(allowedOrderTypes := CheckOrderType(form.allowedOrderTypes, value, checked));
    }
  }

  /** A pre-filled form for a staff member with a ten-digit mobile number
      and a panchayat needs only a password to pass, as long as an order
      type stays checked. */
  lemma {:induction false} PrefillNeedsOnlyPassword(f: CookForm, s: StaffProfile)
    requires |s.mobileNumber| == 10 && AllDigits(s.mobileNumber)
    requires s.panchayatId.Some? && s.panchayatId.value != ""
    requires |f.password| >= 6 && f.allowedOrderTypes != []
    ensures IsValid(f.(kitchenName := KitchenNameFor(s.name), mobileNumber := s.mobileNumber, panchayatId := s.panchayatId.value))
  {
    ValidIff(f.(kitchenName := KitchenNameFor(s.name), mobileNumber := s.mobileNumber, panchayatId := s.panchayatId.value));
  }

  // -------------------------------------------------------------- account

  /** The e-mail address a new cook account is signed up with. */
  function SignUpEmail(mobileNumber: string): (email: string)
    ensures IsPrefix(mobileNumber, email) && |email| == |mobileNumber| + |EmailDomain|
    ensures email[|mobileNumber|..] == EmailDomain
  {
    mobileNumber + EmailDomain
  }

  /** The mobile number an account e-mail was made from, if it is one. */
  function MobileOfEmail(email: string): (r: Option<string>)
    ensures r.Some? ==> SignUpEmail(r.value) == email
  {
    if |email| >= |EmailDomain| && email[|email| - |EmailDomain|..] == EmailDomain
    then
      var m := email[..|email| - |EmailDomain|];
      assert m + EmailDomain == email;
      Some(m)
    else None
  }

  /** Each mobile number gets its own address, and the number can be read
      back from it. */
  lemma {:induction false} SignUpEmailRoundTrip(a: string, b: string)
    ensures MobileOfEmail(SignUpEmail(a)) == Some(a)
    ensures SignUpEmail(a) == SignUpEmail(b) ==> a == b
  {
    var e := SignUpEmail(a);
    assert e[|e| - |EmailDomain|..] == EmailDomain;
    assert e[..|e| - |EmailDomain|] == a;
    if SignUpEmail(a) == SignUpEmail(b) {
      assert |a| == |b|;
      assert a == SignUpEmail(a)[..|a|] == SignUpEmail(b)[..|b|] == b;
    }
  }

  /** Whose account the cook row is created for. */
  datatype Account = Existing(userId: string) | SignUp(email: string, password: string)

  /** `handleSubmit`'s first step: a selected staff member's user, or a new
      sign-up with the mobile-number address. */
  function AccountFor(selectedStaff: Option<StaffProfile>, f: CookForm): (a: Account)
    ensures selectedStaff.Some? ==> a == Existing(selectedStaff.value.userId)
    ensures selectedStaff.None? ==> a.SignUp? && MobileOfEmail(a.email) == Some(f.mobileNumber) && a.password == f.password
  {
    SignUpEmailRoundTrip(f.mobileNumber, f.mobileNumber);
    if selectedStaff.Some? then Existing(selectedStaff.value.userId)
    else SignUp(SignUpEmail(f.mobileNumber), f.password)
  }

  // ---------------------------------------------------------- status badge

  function KnownCookStatuses(): seq<string> { ["pending", "accepted", "preparing", "cooked", "ready"] }

  /** `getStatusColor`. */
  function GetStatusColor(status: string): (c: string)
    ensures status !in KnownCookStatuses() <==> c == "bg-gray-500"
  {
    if status == "pending" then "bg-yellow-500"
    else if status == "accepted" then "bg-blue-500"
    else if status == "preparing" then "bg-orange-500"
    else if status == "cooked" then "bg-purple-500"
    else if status == "ready" then "bg-green-500"
    else "bg-gray-500"
  }
}
