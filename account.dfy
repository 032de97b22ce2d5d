/**
 * The account entities (account.go, attributes.go, params.go): the account
 * and its attributes with their fluent setters, the response shapes and the
 * parameters of fetch and delete.
 */
module Account {
  import opened Wrappers

  newtype int64 = x: int | -0x8000_0000_0000_0000 <= x < 0x8000_0000_0000_0000

  /** The resource type discriminator every account carries. */
  const AccountsType := "accounts"

  /** What uuid.NewString returns: the 36-character text form of a UUID. */
  type Uuid = s: string | |s| == 36 witness "00000000-0000-0000-0000-000000000000"

  /** The fields of an Attributes record at one moment. */
  datatype AttributesValue = AttributesValue(
    accountClassification: Option<string>,
    accountMatchingOptOut: Option<bool>,
    accountNumber: string,
    bankId: string,
    bankIdCode: string,
    baseCurrency: string,
    bic: string,
    country: string,
    iban: string,
    jointAccount: Option<bool>,
    secondaryIdentification: string,
    status: Option<string>,
    switched: Option<bool>,
    customerId: Option<string>,
    name: seq<string>)

  /** The attributes of an account, built with NewAttributes and the With setters. */
  class Attributes {
    var accountClassification: Option<string>
    var accountMatchingOptOut: Option<bool>
    var accountNumber: string
    var bankId: string
    var bankIdCode: string
    var baseCurrency: string
    var bic: string
    var country: string
    var iban: string
    var jointAccount: Option<bool>
    var secondaryIdentification: string
    var status: Option<string>
    var switched: Option<bool>
    var customerId: Option<string>
    var name: seq<string>

    function Value(): AttributesValue
      reads this
    {
      AttributesValue(accountClassification, accountMatchingOptOut, accountNumber, bankId, bankIdCode,
                      baseCurrency, bic, country, iban, jointAccount, secondaryIdentification,
                      status, switched, customerId, name)
    }

    /** NewAttributes: the two required fields set, every other field empty or absent. */
    constructor NewAttributes(baseCurrency: string, country: string)
      ensures Value() == AttributesValue(None, None, "", "", "", baseCurrency, "", country, "", None, "", None, None, None, [])
    {
      accountClassification := None;
      accountMatchingOptOut := None;
      accountNumber := "";
      bankId := "";
      bankIdCode := "";
      this.baseCurrency := baseCurrency;
      bic := "";
      this.country := country;
      iban := "";
      jointAccount := None;
      secondaryIdentification := "";
      status := None;
      switched := None;
      customerId := None;
      name := [];
    }

    method WithAccountClassification(classification: Option<string>) returns (r: Attributes)
      modifies this
      ensures r == this && Value() == old(Value()).(accountClassification := classification)
    {
      accountClassification := classification;
      r := this;
    }

    method WithAccountMatchingOptOut(opt: Option<bool>) returns (r: Attributes)
      modifies this
      ensures r == this && Value() == old(Value()).(accountMatchingOptOut := opt)
    {
      accountMatchingOptOut := opt;
      r := this;
    }

    method WithAccountNumber(num: string) returns (r: Attributes)
      modifies this
      ensures r == this && Value() == old(Value()).(accountNumber := num)
    {
      accountNumber := num;
      r := this;
    }

    method WithBankID(id: string) returns (r: Attributes)
      modifies this
      ensures r == this && Value() == old(Value()).(bankId := id)
    {
      bankId := id;
      r := this;
    }

    method WithBankIDCode(code: string) returns (r: Attributes)
      modifies this
      ensures r == this && Value() == old(Value()).(bankIdCode := code)
    {
      bankIdCode := code;
      r := this;
    }

    method WithBaseCurrency(curr: string) returns (r: Attributes)
      modifies this
      ensures r == this && Value() == old(Value()).(baseCurrency := curr)
    {
      baseCurrency := curr;
      r := this;
    }

    method WithBic(b: string) returns (r: Attributes)
      modifies this
      ensures r == this && Value() == old(Value()).(bic := b)
    {
      bic := b;
      r := this;
    }

    method WithCountry(c: string) returns (r: Attributes)
      modifies this
      ensures r == this && Value() == old(Value()).(country := c)
    {
      country := c;
      r := this;
    }

    method WithIban(i: string) returns (r: Attributes)
      modifies this
      ensures r == this && Value() == old(Value()).(iban := i)
    {
      iban := i;
      r := this;
    }

    method WithJointAccount(isJoint: Option<bool>) returns (r: Attributes)
      modifies this
      ensures r == this && Value() == old(Value()).(jointAccount := isJoint)
    {
      jointAccount := isJoint;
      r := this;
    }

    method WithSecondaryIdentification(sec: string) returns (r: Attributes)
      modifies this
      ensures r == this && Value() == old(Value()).(secondaryIdentification := sec)
    {
      secondaryIdentification := sec;
      r := this;
    }

    method WithStatus(s: Option<string>) returns (r: Attributes)
      modifies this
      ensures r == this && Value() == old(Value()).(status := s)
    {
      status := s;
      r := this;
    }

    method WithSwitched(isSwitched: Option<bool>) returns (r: Attributes)
      modifies this
      ensures r == this && Value() == old(Value()).(switched := isSwitched)
    {
      switched := isSwitched;
      r := this;
    }

    method WithCustomerID(id: Option<string>) returns (r: Attributes)
      modifies this
      ensures r == this && Value() == old(Value()).(customerId := id)
    {
      customerId := id;
      r := this;
    }

    /** WithName appends: the earlier names stay, in order, and n comes last. */
    method WithName(n: string) returns (r: Attributes)
      modifies this
      ensures r == this && Value() == old(Value()).(name := old(name) + [n])
      ensures |name| == |old(name)| + 1 && name[..|old(name)|] == old(name) && name[|name| - 1] == n
    {
      name := name + [n];
      r := this;
    }
  }

  /** The fields of an Account at one moment. */
  datatype AccountValue = AccountValue(
    attributes: Attributes?,
    id: string,
    organisationId: string,
    resourceType: string,
    version: Option<int64>)

  /** The domain model of a bank account. */
  class Account {
    var attributes: Attributes?
    var id: string
    var organisationId: string
    var resourceType: string
    var version: Option<int64>

    function Value(): AccountValue
      reads this
    {
      AccountValue(attributes, id, organisationId, resourceType, version)
    }

    /** New: only the organisation is given; no ID, attributes or version yet. */
    constructor New(orgId: string)
      ensures Value() == AccountValue(null, "", orgId, AccountsType, None)
    {
      attributes := null;
      id := "";
      organisationId := orgId;
      resourceType := AccountsType;
      version := None;
    }

    /** NewAccountWithID: as New, with an ID generated on the client (a fresh UUID, given here). */
    constructor NewAccountWithID(orgId: string, generated: Uuid)
      ensures Value() == AccountValue(null, generated, orgId, AccountsType, None)
      ensures id != ""
    {
      attributes := null;
      id := generated;
      organisationId := orgId;
      resourceType := AccountsType;
      version := None;
    }

    method WithID(newId: string) returns (r: Account)
      modifies this
      ensures r == this && Value() == old(Value()).(id := newId)
    {
      id := newId;
      r := this;
    }

    method WithOrganisationID(orgId: string) returns (r: Account)
      modifies this
      ensures r == this && Value() == old(Value()).(organisationId := orgId)
    {
      organisationId := orgId;
      r := this;
    }

    method WithAttributes(attrs: Attributes?) returns (r: Account)
      modifies this
      ensures r == this && Value() == old(Value()).(attributes := attrs)
    {
      attributes := attrs;
      r := this;
    }
  }

  /** HATEOAS links: self is always there, the paging links only for collections. */
  datatype Links = Links(self: string, first: Option<string>, last: Option<string>, next: Option<string>, prev: Option<string>)

  /** The envelope of a create or fetch response. */
  datatype Response = Response(data: Account?, links: Option<Links>)

  /** What new(account.Response) holds before anything is decoded into it. */
  const EmptyResponse := Response(null, None)

  /** The acknowledgement of a delete. */
  datatype DeleteResponse = DeleteResponse

  datatype FetchAccountParams = FetchAccountParams(id: string)

  datatype DeleteAccountParams = DeleteAccountParams(id: string, version: int64)

  /**
   * The chained build the clients' tests use: attributes from NewAttributes,
   * then an account from New given an ID and those attributes. The account
   * points at the very Attributes object built, and nothing else was set.
   */
  method BuildAccount(orgId: string, accountId: string, currency: string, country: string)
    returns (acc: Account, attrs: Attributes)
    ensures fresh(acc) && fresh(attrs)
    ensures acc.Value() == AccountValue(attrs, accountId, orgId, AccountsType, None)
    ensures attrs.Value() == AttributesValue(None, None, "", "", "", currency, "", country, "", None, "", None, None, None, [])
  {
    attrs := new Attributes.NewAttributes(currency, country);
    acc := new Account.New(orgId);
    acc := acc.WithID(accountId);
    acc := acc.WithAttributes(attrs);
  }
}
