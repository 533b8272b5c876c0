/** The site descriptor builder (credmap.py `populate_site`): the children of
    a site's XML root fill a property bag, element by element, and the bag is
    then validated. */
module SiteDescriptor {
  import opened Wrappers
  import opened Text

  /** An element of the parsed XML document: its tag, its attributes and its
      child elements in document order. */
  datatype Element = Element(tag: string, attrib: map<string, string>, children: seq<Element>)

  /** A value held by the property bag: an attribute string, the
      `multiple_params` flag, a two-entry dictionary built from a special
      element, or the list of `param` attribute maps. */
  datatype Value =
    | Text(text: string)
    | Flag(flag: bool)
    | Record(fields: map<string, string>)
    | Params(maps: seq<map<string, string>>)

  /** The `AttribDict` property bag. */
  type Bag = map<string, Value>

  /** The exceptions `populate_site` lets escape: a missing attribute of a
      special element (`KeyError`), and `re.match` applied to a `login_url`
      that is not a string (`TypeError`). */
  datatype Exception = KeyError(key: string) | TypeError

  /** Why a site is skipped: its document could not be parsed, its login URL
      could not be read, it is not served over HTTPS while `--safe-urls` is
      on, or a login parameter is missing. */
  datatype SkipReason = UnparsableDocument | UnreadableLoginUrl | UnsafeScheme(scheme: string) | MissingLoginParameters

  /** The outcome of `populate_site`: a descriptor, a skip (`populate_site`
      returns None), or an exception that escapes to the caller. */
  datatype Populated = Descriptor(props: Bag) | Skipped(reason: SkipReason) | Raised(error: Exception)

  /** `AttribDict.__getattr__`: a missing key reads as None. */
  function Get(b: Bag, key: string): Option<Value> {
    if key in b then Some(b[key]) else None
  }

  /** Python truthiness of an attribute read from the bag. */
  predicate IsTruthy(v: Option<Value>) {
    match v
    case None => false
    case Some(Text(s)) => s != ""
    case Some(Flag(f)) => f
    case Some(Record(m)) => m != map[]
    case Some(Params(ps)) => ps != []
  }

  /** The four tags that `populate_site` treats specially. */
  predicate IsSpecial(tag: string) {
    tag == "multiple_params" || tag == "custom_search" || tag == "time_parameter" || tag == "invalid_http_status"
  }

  /** The two attributes a special element must carry, in the order the
      source reads them. */
  function RequiredAttributes(tag: string): (keys: (string, string))
    requires IsSpecial(tag)
  {
    if tag == "multiple_params" then ("value", "value")
    else if tag == "custom_search" then ("regex", "value")
    else if tag == "time_parameter" then ("type", "value")
    else ("msg", "value")
  }

  /** A special element lacking one of its required attributes: reading it
      raises `KeyError`. */
  predicate Malformed(e: Element) {
    IsSpecial(e.tag) && (RequiredAttributes(e.tag).0 !in e.attrib || RequiredAttributes(e.tag).1 !in e.attrib)
  }

  /** The dictionary `{k1: attrib[k1], k2: attrib[k2]}`, or the `KeyError` of
      the first key missing. */
  function RecordOf(attrib: map<string, string>, k1: string, k2: string): Result<Value, Exception> {
    if k1 !in attrib then Err(KeyError(k1))
    else if k2 !in attrib then Err(KeyError(k2))
    else Ok(Record(map[k1 := attrib[k1], k2 := attrib[k2]]))
  }

  /** One iteration of the loop over the root's children (credmap.py
      lines 337-356). */
  function ApplyElement(b: Bag, e: Element): Result<Bag, Exception> {
    if e.tag == "multiple_params" then
      if "value" !in e.attrib then Err(KeyError("value"))
      else Ok(b["multiple_params" := Flag(true)]["multiple_params_url" := Text(e.attrib["value"])])
    else if e.tag == "custom_search" || e.tag == "time_parameter" || e.tag == "invalid_http_status" then
      var keys := RequiredAttributes(e.tag);
      match RecordOf(e.attrib, keys.0, keys.1)
      case Err(x) => Err(x)
      case Ok(r) => Ok(b[e.tag := r])
    else
      var withValue := if "value" in e.attrib then b[e.tag := Text(e.attrib["value"])] else b;
      Ok(if "type" in e.attrib then withValue[e.tag + "_type" := Text(e.attrib["type"])] else withValue)
  }

  /** The loop over the root's children, from an empty bag; the first
      exception ends it. */
  function Collect(es: seq<Element>): Result<Bag, Exception>
    decreases |es|
  {
    if es == [] then Ok(map[])
    else
      match Collect(es[..|es| - 1])
      case Err(x) => Err(x)
      case Ok(b) => ApplyElement(b, es[|es| - 1])
  }

  /** The entries a well-formed element contributes to the bag, stated per
      tag: a special element stores one fixed key (two for
      `multiple_params`); any other element stores its `value` under its tag
      and its `type` under its tag followed by "_type". */
  function Writes(e: Element): Bag {
    if Malformed(e) then map[]
    else if e.tag == "multiple_params" then
      map["multiple_params" := Flag(true), "multiple_params_url" := Text(e.attrib["value"])]
    else if IsSpecial(e.tag) then
      var keys := RequiredAttributes(e.tag);
      map[e.tag := Record(map[keys.0 := e.attrib[keys.0], keys.1 := e.attrib[keys.1]])]
    else
      (if "value" in e.attrib then map[e.tag := Text(e.attrib["value"])] else map[])
      + (if "type" in e.attrib then map[e.tag + "_type" := Text(e.attrib["type"])] else map[])
  }

  /** One element either raises the `KeyError` of its first missing
      attribute, or overwrites exactly the entries it writes. */
  lemma ApplyElementWrites(b: Bag, e: Element)
    ensures Malformed(e) <==> ApplyElement(b, e).Err?
    ensures Malformed(e) ==>
      var keys := RequiredAttributes(e.tag);
      ApplyElement(b, e) == Err(KeyError(if keys.0 !in e.attrib then keys.0 else keys.1))
    ensures !Malformed(e) ==> ApplyElement(b, e) == Ok(b + Writes(e))
  {
    if !IsSpecial(e.tag) {
      ApplyPlainElement(b, e);
    } else if !Malformed(e) && e.tag == "multiple_params" {
      var w := Writes(e);
      assert ApplyElement(b, e).value == b + w;
    } else if !Malformed(e) {
      var w := Writes(e);
      assert ApplyElement(b, e).value == b + w;
    }
  }

  /** An element with an ordinary tag stores its `value` and its `type`. */
  lemma ApplyPlainElement(b: Bag, e: Element)
    requires !IsSpecial(e.tag)
    ensures ApplyElement(b, e) == Ok(b + Writes(e))
  {
    var vm: Bag := if "value" in e.attrib then map[e.tag := Text(e.attrib["value"])] else map[];
    var tm: Bag := if "type" in e.attrib then map[e.tag + "_type" := Text(e.attrib["type"])] else map[];
    var withValue := if "value" in e.attrib then b[e.tag := Text(e.attrib["value"])] else b;
    assert withValue == b + vm;
    var full := if "type" in e.attrib then withValue[e.tag + "_type" := Text(e.attrib["type"])] else withValue;
    assert full == withValue + tm;
    assert Writes(e) == vm + tm;
    assert (b + vm) + tm == b + (vm + tm);
  }

  /** The special tags never create a key ending in "_type". */
  lemma SpecialElementsWriteNoTypeKey(e: Element, k: string)
    requires IsSpecial(e.tag) && k in Writes(e)
    ensures !(|k| >= 5 && k[|k| - 5..] == "_type")
  {
  }

  /** The child at `i` is the first malformed one. */
  predicate FirstMalformed(es: seq<Element>, i: nat) {
    i < |es| && Malformed(es[i]) && forall j :: 0 <= j < i ==> !Malformed(es[j])
  }

  /** The loop raises exactly when some child is a malformed special
      element, and then raises the `KeyError` of the first of them. */
  lemma {:induction false} CollectRaisesIffMalformed(es: seq<Element>)
    ensures Collect(es).Err? <==> exists i :: 0 <= i < |es| && Malformed(es[i])
    ensures Collect(es).Err? ==>
              exists i: nat :: FirstMalformed(es, i) && Collect(es).error == ApplyElement(map[], es[i]).error
    decreases |es|
  {
    if es != [] {
      var init := es[..|es| - 1];
      CollectRaisesIffMalformed(init);
      assert forall i :: 0 <= i < |init| ==> init[i] == es[i];
      match Collect(init)
      case Err(x) =>
        var i: nat :| FirstMalformed(init, i) && x == ApplyElement(map[], init[i]).error;
        assert FirstMalformed(es, i);
      case Ok(b) =>
        ApplyElementWrites(b, es[|es| - 1]);
        ApplyElementWrites(map[], es[|es| - 1]);
    }
  }

  /** After the loop, a key is present exactly when some child writes it. */
  lemma {:induction false} CollectKeys(es: seq<Element>, k: string)
    requires Collect(es).Ok?
    ensures k in Collect(es).value <==> exists i :: 0 <= i < |es| && k in Writes(es[i])
    decreases |es|
  {
    if es != [] {
      var init := es[..|es| - 1];
      var last := es[|es| - 1];
      assert Collect(init).Ok?;
      CollectKeys(init, k);
      ApplyElementWrites(Collect(init).value, last);
      assert forall i :: 0 <= i < |init| ==> init[i] == es[i];
    }
  }

  /** Last writer wins: after the loop, a key holds the value written by the
      last child that writes it. */
  lemma {:induction false} CollectLastWriter(es: seq<Element>, k: string, i: nat)
    requires Collect(es).Ok?
    requires i < |es| && k in Writes(es[i])
    requires forall j :: i < j < |es| ==> k !in Writes(es[j])
    ensures k in Collect(es).value && Collect(es).value[k] == Writes(es[i])[k]
    decreases |es|
  {
    var init := es[..|es| - 1];
    var last := es[|es| - 1];
    assert Collect(init).Ok?;
    ApplyElementWrites(Collect(init).value, last);
    if i < |es| - 1 {
      assert forall j :: i < j < |init| ==> init[j] == es[j];
      CollectLastWriter(init, k, i);
    }
  }

  /** The kind of value each key can hold: the `multiple_params` flag, the
      two-entry dictionary of its required attributes under the three other
      special keys, a string elsewhere. */
  predicate WellShaped(k: string, v: Value) {
    if k == "multiple_params" then v == Flag(true)
    else if IsSpecial(k) then v.Record? && v.fields.Keys == {RequiredAttributes(k).0, RequiredAttributes(k).1}
    else v.Text?
  }

  lemma WritesWellShaped(e: Element, k: string)
    requires k in Writes(e)
    ensures WellShaped(k, Writes(e)[k])
  {
    if !IsSpecial(e.tag) && "type" in e.attrib && k == e.tag + "_type" {
      assert k[|k| - 5..] == "_type";
      assert "multiple_params"[10..] != "_type";
      assert "custom_search"[8..] != "_type";
      assert "time_parameter"[9..] != "_type";
      assert "invalid_http_status"[14..] != "_type";
    }
  }

  /** After the loop every entry of the bag is well shaped. */
  lemma {:induction false} CollectWellShaped(es: seq<Element>, k: string)
    requires Collect(es).Ok? && k in Collect(es).value
    ensures WellShaped(k, Collect(es).value[k])
    decreases |es|
  {
    var init := es[..|es| - 1];
    var last := es[|es| - 1];
    assert Collect(init).Ok?;
    ApplyElementWrites(Collect(init).value, last);
    if k in Writes(last) {
      WritesWellShaped(last, k);
    } else {
      CollectWellShaped(init, k);
    }
  }

  /** `xml_tree.iter(tag)`: the element and all its descendants, in document
      order, whose tag is `tag`. */
  function Iter(e: Element, tag: string): seq<Element>
    decreases e, 1
  {
    (if e.tag == tag then [e] else []) + IterAll(e.children, tag)
  }

  function IterAll(es: seq<Element>, tag: string): seq<Element>
    decreases es, 0
  {
    if es == [] then []
    else Iter(es[0], tag) + IterAll(es[1..], tag)
  }

  /** `xml_tree.iter('param')`. */
  function ParamElements(root: Element): seq<Element> {
    Iter(root, "param")
  }

  /** Every element `iter(tag)` yields carries that tag, and the element
      itself comes first when it carries it. */
  lemma {:induction false} IterTags(e: Element, tag: string)
    ensures forall x :: x in Iter(e, tag) ==> x.tag == tag
    ensures e.tag == tag ==> |Iter(e, tag)| > 0 && Iter(e, tag)[0] == e
    decreases e, 1
  {
    IterAllTags(e.children, tag);
  }

  lemma {:induction false} IterAllTags(es: seq<Element>, tag: string)
    ensures forall x :: x in IterAll(es, tag) ==> x.tag == tag
    decreases es, 0
  {
    if es != [] {
      IterTags(es[0], tag);
      IterAllTags(es[1..], tag);
    }
  }

  /** `{k: v for k, v in attrib.items() if v}`. */
  function NonEmptyValues(m: map<string, string>): map<string, string> {
    map k | k in m && m[k] != "" :: m[k]
  }

  /** The `param` maps kept by the second loop (credmap.py lines 358-363):
      each with its empty values dropped, and omitted when nothing remains. */
  function KeptParams(ps: seq<Element>): seq<map<string, string>>
    decreases |ps|
  {
    if ps == [] then []
    else
      var m := NonEmptyValues(ps[|ps| - 1].attrib);
      KeptParams(ps[..|ps| - 1]) + (if m != map[] then [m] else [])
  }

  /** The kept maps are exactly the non-empty `{k: v ... if v}` maps of the
      `param` elements: each kept map is one element's attributes with the
      empty values dropped, and every element whose filtered map is not
      empty contributes it. There are at most as many as elements. */
  lemma {:induction false} KeptParamsSpec(ps: seq<Element>)
    ensures |KeptParams(ps)| <= |ps|
    ensures forall m :: m in KeptParams(ps) ==>
      m != map[] && (forall k :: k in m ==> m[k] != "") &&
      exists p :: p in ps && m == NonEmptyValues(p.attrib)
    ensures forall p :: p in ps && NonEmptyValues(p.attrib) != map[] ==> NonEmptyValues(p.attrib) in KeptParams(ps)
    decreases |ps|
  {
    if ps != [] {
      var init := ps[..|ps| - 1];
      KeptParamsSpec(init);
      assert ps == init + [ps[|ps| - 1]];
      assert forall p :: p in init ==> p in ps;
      assert ps[|ps| - 1] in ps;
    }
  }

  /** Document order: the `param` elements of two consecutive stretches of
      the document give the maps of the first stretch, then those of the
      second. */
  lemma {:induction false} KeptParamsAppend(a: seq<Element>, b: seq<Element>)
    ensures KeptParams(a + b) == KeptParams(a) + KeptParams(b)
    decreases |b|
  {
    if b == [] {
      assert a + b == a;
    } else {
      var init := b[..|b| - 1];
      KeptParamsAppend(a, init);
      assert (a + b)[..|a + b| - 1] == a + init;
      assert (a + b)[|a + b| - 1] == b[|b| - 1];
    }
  }

  /** The scheme of a login URL matched by `(?P<type>[^:]+)://[^.]+(\.\w+)*`
      at the start of the string, or None when it does not match. The
      trailing `(\.\w+)*` may match nothing, so after "://" the pattern
      needs just one character other than '.'. */
  function LoginUrlScheme(u: string): Option<string> {
    var j := FirstIndex(u, ':', 0);
    if 0 < j && j + 3 < |u| && u[j..j + 3] == "://" && u[j + 3] != '.' then Some(u[..j]) else None
  }

  /** A login URL read as `scheme` followed by "://" and a first character of
      the host other than '.'. */
  predicate ValidLoginUrl(u: string, scheme: string) {
    scheme != "" && ':' !in scheme && StartsWith(u, scheme + "://") && |u| > |scheme| + 3 && u[|scheme| + 3] != '.'
  }

  /** The URL check in both directions: a scheme is read exactly when the
      URL is a non-empty colon-free scheme, then "://", then a character
      other than '.'. */
  lemma LoginUrlSchemeSpec(u: string, scheme: string)
    ensures LoginUrlScheme(u) == Some(scheme) <==> ValidLoginUrl(u, scheme)
  {
    var j := FirstIndex(u, ':', 0);
    if LoginUrlScheme(u) == Some(scheme) {
      assert u[..j + 3] == scheme + "://";
      assert forall c :: c in scheme ==> c != ':' by {
        forall c | c in scheme ensures c != ':' {
          var k :| 0 <= k < |scheme| && scheme[k] == c;
          assert u[k] == c;
        }
      }
    }
    if ValidLoginUrl(u, scheme) {
      assert forall k :: 0 <= k < |scheme| ==> u[k] == scheme[k];
      assert u[|scheme|] == ':';
      assert j == |scheme|;
      assert u[..|scheme| + 3] == scheme + "://";
      assert u[..j] == u[..|scheme| + 3][..j];
      assert u[j..j + 3] == u[..|scheme| + 3][j..j + 3];
    }
  }

  /** The validations after the loops (credmap.py lines 365-385), in the
      source's order: the login URL, the HTTPS policy, the login
      parameters. */
  function Validate(b: Bag, safeUrls: bool): Populated {
    match Get(b, "login_url")
    case Some(Text(u)) =>
      (match LoginUrlScheme(u)
       case None => Skipped(UnreadableLoginUrl)
       case Some(scheme) =>
         if safeUrls && Upper(scheme) != "HTTPS" then Skipped(UnsafeScheme(Upper(scheme)))
         else if !IsTruthy(Get(b, "login_parameter")) || !IsTruthy(Get(b, "password_parameter")) then Skipped(MissingLoginParameters)
         else Descriptor(b))
    case _ => Raised(TypeError)
  }

  /** The bag once `multiple_params`, if set, is replaced by the kept
      `param` maps. */
  function WithParams(b: Bag, root: Element): Bag {
    if IsTruthy(Get(b, "multiple_params")) then b["multiple_params" := Params(KeptParams(ParamElements(root)))] else b
  }

  /** `populate_site` on the parsed document (None when parsing failed). */
  function Populate(root: Option<Element>, safeUrls: bool): Populated {
    match root
    case None => Skipped(UnparsableDocument)
    case Some(tree) =>
      match Collect(tree.children)
      case Err(x) => Raised(x)
      case Ok(b) => Validate(WithParams(b, tree), safeUrls)
  }

  /** `populate_site`, as credmap.py runs it: a loop filling the bag, a loop
      collecting the `param` maps, and the three checks. */
  method PopulateSite(root: Option<Element>, safeUrls: bool) returns (r: Populated)
    ensures r == Populate(root, safeUrls)
  {
    if root.None? {
      return Skipped(UnparsableDocument);
    }
    var tree := root.value;
    var collected := FillProperties(tree.children);
    if collected.Err? {
      return Raised(collected.error);
    }
    var props := collected.value;
    if IsTruthy(Get(props, "multiple_params")) {
      var kept := CollectParams(ParamElements(tree));
      props := props["multiple_params" := Params(kept)];
    }
    assert props == WithParams(collected.value, tree);

    var url := Get(props, "login_url");
    if !(url.Some? && url.value.Text?) {
      return Raised(TypeError);
    }
    var scheme := LoginUrlScheme(url.value.text);
    if scheme.None? {
      return Skipped(UnreadableLoginUrl);
    }
    if safeUrls && Upper(scheme.value) != "HTTPS" {
      return Skipped(UnsafeScheme(Upper(scheme.value)));
    }
    if !IsTruthy(Get(props, "login_parameter")) || !IsTruthy(Get(props, "password_parameter")) {
      return Skipped(MissingLoginParameters);
    }
    r := Descriptor(props);
  }

  /** The loop over the root's children, which stops at the first
      `KeyError`. */
  method FillProperties(children: seq<Element>) returns (r: Result<Bag, Exception>)
    ensures r == Collect(children)
  {
    var props: Bag := map[];
    var i := 0;
    while i < |children|
      invariant 0 <= i <= |children|
      invariant Collect(children[..i]) == Ok(props)
    {
      var e := children[i];
      CollectStep(children, i);
      if e.tag == "multiple_params" {
        if "value" !in e.attrib {
          CollectRaisesFromPrefix(children, i + 1);
          return Err(KeyError("value"));
        }
        props := props["multiple_params" := Flag(true)]["multiple_params_url" := Text(e.attrib["value"])];
      } else if e.tag == "custom_search" || e.tag == "time_parameter" || e.tag == "invalid_http_status" {
        var keys := RequiredAttributes(e.tag);
        if keys.0 !in e.attrib {
          CollectRaisesFromPrefix(children, i + 1);
          return Err(KeyError(keys.0));
        }
        if keys.1 !in e.attrib {
          CollectRaisesFromPrefix(children, i + 1);
          return Err(KeyError(keys.1));
        }
        props := props[e.tag := Record(map[keys.0 := e.attrib[keys.0], keys.1 := e.attrib[keys.1]])];
      } else {
        if "value" in e.attrib {
          props := props[e.tag := Text(e.attrib["value"])];
        }
        if "type" in e.attrib {
          props := props[e.tag + "_type" := Text(e.attrib["type"])];
        }
      }
      i := i + 1;
    }
    assert children[..i] == children;
    return Ok(props);
  }

  /** One more child: the loop goes on from the bag so far, unless it has
      already raised. */
  lemma CollectStep(es: seq<Element>, i: nat)
    requires i < |es|
    ensures Collect(es[..i + 1]) ==
      match Collect(es[..i])
      case Err(x) => Err(x)
      case Ok(b) => ApplyElement(b, es[i])
  {
    assert es[..i + 1][..i] == es[..i];
  }

  /** The loop over the `param` elements that rebuilds `multiple_params`. */
  method CollectParams(params: seq<Element>) returns (kept: seq<map<string, string>>)
    ensures kept == KeptParams(params)
  {
    kept := [];
    var j := 0;
    while j < |params|
      invariant 0 <= j <= |params|
      invariant kept == KeptParams(params[..j])
    {
      assert params[..j + 1][..j] == params[..j];
      var m := NonEmptyValues(params[j].attrib);
      if m != map[] {
        kept := kept + [m];
      }
      j := j + 1;
    }
    assert params[..j] == params;
  }


  /** An exception raised by the child at `n - 1`, after the first `n - 1`
      children were read without one, is the exception of the whole loop. */
  lemma {:induction false} CollectRaisesFromPrefix(es: seq<Element>, n: nat)
    requires 0 < n <= |es| && Collect(es[..n - 1]).Ok? && Collect(es[..n]).Err?
    ensures Collect(es) == Collect(es[..n])
    decreases |es| - n
  {
    assert es[..n][..n - 1] == es[..n - 1];
    if n < |es| {
      assert es[..n + 1][..n] == es[..n];
      assert Collect(es[..n + 1]) == Collect(es[..n]);
      ErrorPersists(es, n + 1, Collect(es[..n]));
    } else {
      assert es[..n] == es;
    }
  }

  lemma {:induction false} ErrorPersists(es: seq<Element>, n: nat, err: Result<Bag, Exception>)
    requires n <= |es| && err.Err? && Collect(es[..n]) == err
    ensures Collect(es) == err
    decreases |es| - n
  {
    if n < |es| {
      assert es[..n + 1][..n] == es[..n];
      ErrorPersists(es, n + 1, err);
    } else {
      assert es[..n] == es;
    }
  }

  /** A descriptor is returned only when its login URL reads as a non-empty
      colon-free scheme, "://" and a character other than '.', its scheme is
      HTTPS whenever `--safe-urls` is on, and both login parameters are
      non-empty strings. */
  lemma DescriptorIsValid(root: Option<Element>, safeUrls: bool, b: Bag)
    requires Populate(root, safeUrls) == Descriptor(b)
    ensures "login_url" in b && b["login_url"].Text?
    ensures exists scheme :: ValidLoginUrl(b["login_url"].text, scheme) && (safeUrls ==> Upper(scheme) == "HTTPS")
    ensures "login_parameter" in b && b["login_parameter"].Text? && b["login_parameter"].text != ""
    ensures "password_parameter" in b && b["password_parameter"].Text? && b["password_parameter"].text != ""
  {
    var tree := root.value;
    var b0 := Collect(tree.children).value;
    assert b == WithParams(b0, tree);
    var u := b["login_url"].text;
    var scheme := LoginUrlScheme(u).value;
    LoginUrlSchemeSpec(u, scheme);
    assert ValidLoginUrl(u, scheme) && (safeUrls ==> Upper(scheme) == "HTTPS");
    CollectWellShaped(tree.children, "login_parameter");
    CollectWellShaped(tree.children, "password_parameter");
  }

  /** Conversely, a document whose children are read without an exception is
      accepted when its login URL is valid, its scheme passes the HTTPS
      policy and both login parameters are non-empty. */
  lemma ValidDocumentIsAccepted(tree: Element, safeUrls: bool, scheme: string)
    requires Collect(tree.children).Ok?
    requires var b := Collect(tree.children).value;
      && Get(b, "login_url").Some? && Get(b, "login_url").value.Text?
      && ValidLoginUrl(b["login_url"].text, scheme)
      && (safeUrls ==> Upper(scheme) == "HTTPS")
      && IsTruthy(Get(b, "login_parameter")) && IsTruthy(Get(b, "password_parameter"))
    ensures Populate(Some(tree), safeUrls) == Descriptor(WithParams(Collect(tree.children).value, tree))
  {
    var b := Collect(tree.children).value;
    LoginUrlSchemeSpec(b["login_url"].text, scheme);
  }

  /** The HTTPS policy runs before the parameter check: with `--safe-urls`, a
      readable URL whose scheme does not upper-case to HTTPS is skipped for
      its scheme, whatever its parameters. */
  lemma UnsafeSchemeSkippedFirst(tree: Element, scheme: string)
    requires Collect(tree.children).Ok?
    requires var b := Collect(tree.children).value;
      Get(b, "login_url").Some? && Get(b, "login_url").value.Text? && ValidLoginUrl(b["login_url"].text, scheme)
    requires Upper(scheme) != "HTTPS"
    ensures Populate(Some(tree), true) == Skipped(UnsafeScheme(Upper(scheme)))
  {
    var b := Collect(tree.children).value;
    LoginUrlSchemeSpec(b["login_url"].text, scheme);
  }

  /** Without `--safe-urls` the scheme never rejects a site, and turning the
      policy on changes nothing but turning some outcomes into scheme skips. */
  lemma SafeUrlsOnlyAddsSchemeSkips(root: Option<Element>)
    ensures !(Populate(root, false).Skipped? && Populate(root, false).reason.UnsafeScheme?)
    ensures Populate(root, true) == Populate(root, false) ||
            (Populate(root, true).Skipped? && Populate(root, true).reason.UnsafeScheme? &&
             (Populate(root, false).Descriptor? || Populate(root, false) == Skipped(MissingLoginParameters)))
  {
  }

  /** A document none of whose children sets `login_url` makes `re.match`
      raise `TypeError` (once the children are read without a `KeyError`). */
  lemma MissingLoginUrlRaises(tree: Element)
    requires forall i :: 0 <= i < |tree.children| ==> !Malformed(tree.children[i])
    requires forall i :: 0 <= i < |tree.children| ==> "login_url" !in Writes(tree.children[i])
    ensures Populate(Some(tree), false) == Raised(TypeError)
    ensures Populate(Some(tree), true) == Raised(TypeError)
  {
    CollectRaisesIffMalformed(tree.children);
    CollectKeys(tree.children, "login_url");
  }

  /** `populate_site` raises exactly when a child is a special element
      missing a required attribute (`KeyError`), or when no child sets
      `login_url`, which then reads as None (`TypeError` in `re.match`). */
  lemma PopulateRaisesIff(tree: Element, safeUrls: bool)
    ensures Populate(Some(tree), safeUrls).Raised? <==>
      (exists i :: 0 <= i < |tree.children| && Malformed(tree.children[i])) ||
      (forall i :: 0 <= i < |tree.children| ==> "login_url" !in Writes(tree.children[i]))
  {
    var es := tree.children;
    CollectRaisesIffMalformed(es);
    if Collect(es).Ok? {
      CollectKeys(es, "login_url");
      if "login_url" in Collect(es).value {
        CollectWellShaped(es, "login_url");
      }
    }
  }

  /** A site is skipped for its login URL exactly when its children are read
      without an exception, `login_url` is set, and no scheme reads from it
      as a non-empty colon-free scheme, "://" and a character other than
      '.'. */
  lemma PopulateUnreadableIff(tree: Element, safeUrls: bool)
    ensures Populate(Some(tree), safeUrls) == Skipped(UnreadableLoginUrl) <==>
      && Collect(tree.children).Ok?
      && Get(Collect(tree.children).value, "login_url").Some?
      && Get(Collect(tree.children).value, "login_url").value.Text?
      && forall scheme :: !ValidLoginUrl(Collect(tree.children).value["login_url"].text, scheme)
  {
    var es := tree.children;
    if Collect(es).Ok? && "login_url" in Collect(es).value && Collect(es).value["login_url"].Text? {
      var u := Collect(es).value["login_url"].text;
      if LoginUrlScheme(u).Some? {
        LoginUrlSchemeSpec(u, LoginUrlScheme(u).value);
      } else {
        forall scheme ensures !ValidLoginUrl(u, scheme) {
          LoginUrlSchemeSpec(u, scheme);
        }
      }
    }
  }

  /** When a `multiple_params` child is present, the descriptor's
      `multiple_params` is the list of kept `param` maps in document order. */
  lemma MultipleParamsReplaced(tree: Element, safeUrls: bool, b: Bag, i: nat)
    requires Populate(Some(tree), safeUrls) == Descriptor(b)
    requires i < |tree.children| && tree.children[i].tag == "multiple_params"
    ensures "multiple_params" in b && b["multiple_params"] == Params(KeptParams(ParamElements(tree)))
  {
    MultipleParamsFlagged(tree, safeUrls, b, i);
    WithParamsReplaces(Collect(tree.children).value, tree);
  }

  /** A `multiple_params` child leaves the flag set after the first loop. */
  lemma MultipleParamsFlagged(tree: Element, safeUrls: bool, b: Bag, i: nat)
    requires Populate(Some(tree), safeUrls) == Descriptor(b)
    requires i < |tree.children| && tree.children[i].tag == "multiple_params"
    ensures b == WithParams(Collect(tree.children).value, tree)
    ensures Get(Collect(tree.children).value, "multiple_params") == Some(Flag(true))
  {
    var es := tree.children;
    CollectRaisesIffMalformed(es);
    assert "multiple_params" in Writes(es[i]);
    CollectKeys(es, "multiple_params");
    CollectWellShaped(es, "multiple_params");
  }

  lemma WithParamsReplaces(b0: Bag, tree: Element)
    requires Get(b0, "multiple_params") == Some(Flag(true))
    ensures WithParams(b0, tree)["multiple_params"] == Params(KeptParams(ParamElements(tree)))
  {
  }

  /** Without a `multiple_params` child the descriptor has no
      `multiple_params` key. */
  lemma NoMultipleParamsAbsent(tree: Element, safeUrls: bool, b: Bag)
    requires Populate(Some(tree), safeUrls) == Descriptor(b)
    requires forall i :: 0 <= i < |tree.children| ==> tree.children[i].tag != "multiple_params"
    ensures "multiple_params" !in b
  {
    var es := tree.children;
    forall i | 0 <= i < |es|
      ensures "multiple_params" !in Writes(es[i])
    {
      if !IsSpecial(es[i].tag) && "type" in es[i].attrib {
        assert (es[i].tag + "_type")[|es[i].tag|..] == "_type";
        assert "multiple_params"[10..] != "_type";
      }
    }
    CollectKeys(es, "multiple_params");
  }
}
