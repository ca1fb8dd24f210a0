/**
 * The parameters of a block-creation call (BlockParams in blocks.go): the
 * validation rules a caller's parameters must pass before any request is
 * built, and their encoding as form fields.
 */
module Params {
  import opened Http

  /** The four rules Validates checks, in the order it checks them. */
  datatype Violation = MissingProduct | MissingTemplate | BothCredentials | NoCredential
  {
    /** The text of the error Validates returns for this rule. */
    function Message(): string
    {
      match this
      case MissingProduct => "Must specify \"Product\""
      case MissingTemplate => "Must specify \"Template\""
      case BothCredentials => "Only one of \"Password\" and \"SshPublicKey\" may be specified"
      case NoCredential => "One of \"Password\" and \"SshPublicKey\" must be specified"
    }

    /** The position of the rule in the order of checks. */
    function Rank(): nat
    {
      match this
      case MissingProduct => 0
      case MissingTemplate => 1
      case BothCredentials => 2
      case NoCredential => 3
    }
  }

  /** The form keys a BlockParams value can be encoded under. */
  const FormKeys: set<string> :=
    {"product", "template", "password", "ssh_public_key", "hostname", "username", "location"}

  datatype BlockParams = BlockParams(
    product: string,
    template: string,
    password: string,
    sshPublicKey: string,
    hostname: string,
    username: string,
    location: string)
  {
    /** Whether these parameters break the given rule, each rule on its own. */
    predicate Violates(v: Violation)
    {
      match v
      case MissingProduct => product == ""
      case MissingTemplate => template == ""
      case BothCredentials => password != "" && sshPublicKey != ""
      case NoCredential => password == "" && sshPublicKey == ""
    }

    /** None when the parameters are acceptable, otherwise the rule that failed. */
    function Validates(): (r: Option<Violation>)
      ensures r.None? <==>
        product != "" && template != "" && (password != "" <==> sshPublicKey == "")
      ensures r.Some? ==> Violates(r.value)
    {
      if product == "" then Some(MissingProduct)
      else if template == "" then Some(MissingTemplate)
      else if password != "" && sshPublicKey != "" then Some(BothCredentials)
      else if password == "" && sshPublicKey == "" then Some(NoCredential)
      else None
    }

    /** `v` is the form encoding of these parameters: each field is sent under
        its own fixed key, and only the seven form keys occur. */
    ghost predicate Encodes(v: Form)
    {
      && v.Keys <= FormKeys
      && Sends(v, "product", product)
      && Sends(v, "template", template)
      && Sends(v, "password", password)
      && Sends(v, "ssh_public_key", sshPublicKey)
      && Sends(v, "hostname", hostname)
      && Sends(v, "username", username)
      && Sends(v, "location", location)
    }

    /** Builds the form fields of a create request, one key at a time. */
    method ToValues() returns (v: Form)
      ensures Encodes(v)
    {
      v := map[];
      if product != "" {
        v := v["product" := product];
      }
      if template != "" {
        v := v["template" := template];
      }
      if password != "" {
        v := v["password" := password];
      }
      if sshPublicKey != "" {
        v := v["ssh_public_key" := sshPublicKey];
      }
      if hostname != "" {
        v := v["hostname" := hostname];
      }
      if username != "" {
        v := v["username" := username];
      }
      if location != "" {
        v := v["location" := location];
      }
    }
  }

  /** The form `v` carries `field` under `key`: the key is present exactly when
      the field is non-empty, and then holds the field as its one value. */
  ghost predicate Sends(v: Form, key: string, field: string)
  {
    && (key in v <==> field != "")
    && (key in v ==> v[key] == field)
  }

  /** What a server reads back from a form with FormValue, field by field. */
  function FromForm(v: Form): BlockParams
  {
    BlockParams(
      FormValue(v, "product"), FormValue(v, "template"), FormValue(v, "password"),
      FormValue(v, "ssh_public_key"), FormValue(v, "hostname"), FormValue(v, "username"),
      FormValue(v, "location"))
  }

  /** The four error texts are pairwise different, so the text of the error
      Validates returns identifies the rule that failed. */
  lemma MessageIdentifiesRule(u: Violation, v: Violation)
    ensures u.Message() == v.Message() <==> u == v
  {
  }

  /** Validates reports the earliest rule, in the order of checks, that the
      parameters break. */
  lemma ValidatesReportsFirstViolation(p: BlockParams, v: Violation)
    ensures p.Validates() == Some(v) <==>
      p.Violates(v) && forall u: Violation :: u.Rank() < v.Rank() ==> !p.Violates(u)
  {
  }

  /** Validates accepts exactly the parameters that break none of the rules. */
  lemma ValidatesAcceptsIffNoViolation(p: BlockParams)
    ensures p.Validates().None? <==> forall v: Violation :: !p.Violates(v)
  {
  }

  /** Parameters with every field empty fail, and on the product rule first. */
  lemma EmptyParamsReportProduct()
    ensures BlockParams("", "", "", "", "", "", "").Validates() == Some(MissingProduct)
  {
  }

  /** Supplying both a password and a public key fails, whatever else is set;
      with product and template present it fails on that rule. */
  lemma BothCredentialsRejected(p: BlockParams)
    requires p.password != "" && p.sshPublicKey != ""
    ensures p.Validates().Some?
    ensures p.product != "" && p.template != "" ==> p.Validates() == Some(BothCredentials)
  {
  }

  /** The form encoding of a parameter value is unique. */
  lemma EncodingIsUnique(p: BlockParams, v: Form, w: Form)
    requires p.Encodes(v) && p.Encodes(w)
    ensures v == w
  {
  }

  /** No key of an encoded form is empty-valued and none lies outside the fixed
      key set. */
  lemma EncodingOmitsEmpty(p: BlockParams, v: Form)
    requires p.Encodes(v)
    ensures v.Keys <= FormKeys
    ensures forall k :: k in v ==> v[k] != ""
  {
  }

  /** Reading every field back from an encoded form gives the parameters. */
  lemma FormRoundTrip(p: BlockParams, v: Form)
    requires p.Encodes(v)
    ensures FromForm(v) == p
  {
  }

  /** The form of acceptable parameters carries product and template and
      exactly one of password and ssh_public_key. */
  lemma ValidFormCarriesRequiredKeys(p: BlockParams, v: Form)
    requires p.Validates().None? && p.Encodes(v)
    ensures "product" in v && "template" in v
    ensures "password" in v <==> "ssh_public_key" !in v
  {
  }
}
