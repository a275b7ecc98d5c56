/** The identity under which services are cached: everything of a service but its scheme. */
module ServiceKeys {
  import opened Options
  import opened Urls
  import opened IR
  import opened Texts

  datatype ServiceKey = ServiceKey(
    uid: string,
    namespace: string,
    name: string,
    port: int,
    appProtocol: Option<string>,
    certs: seq<ObjectRef>)

  function Key(s: Service): ServiceKey {
    ServiceKey(s.uid, s.namespace, s.name, s.port, s.appProtocol, s.certs)
  }

  function CertText(ref: ObjectRef): string {
    ref.name + "." + ref.namespace
  }

  /** The printed key, as the code builds it piece by piece. */
  method KeyText(s: Service) returns (key: string)
    ensures key == Join(Fields(Key(s)), '/')
  {
    var fields := [s.uid, s.namespace, s.name, Decimal(s.port)];
    key := s.uid + "/" + s.namespace + "/" + s.name + "/" + Decimal(s.port);
    FourJoined(s.uid, s.namespace, s.name, Decimal(s.port));
    if s.appProtocol.Some? {
      JoinAppend(fields, s.appProtocol.value, '/');
      key, fields := key + "/" + s.appProtocol.value, fields + [s.appProtocol.value];
    }
    ghost var front := fields;
    for i := 0 to |s.certs|
      invariant fields == front + CertTexts(s.certs[..i]) && key == Join(fields, '/')
    {
      var text := s.certs[i].name + "." + s.certs[i].namespace;
      JoinAppend(fields, text, '/');
      assert CertTexts(s.certs[..i + 1]) == CertTexts(s.certs[..i]) + [text];
      key, fields := key + "/" + text, fields + [text];
    }
    assert s.certs[..|s.certs|] == s.certs;
  }

  lemma FourJoined(a: string, b: string, c: string, d: string)
    ensures Join([a, b, c, d], '/') == a + "/" + b + "/" + c + "/" + d
  {
    assert [a, b, c, d][1..] == [b, c, d] && [b, c, d][1..] == [c, d] && [c, d][1..] == [d];
    assert Join([c, d], '/') == c + "/" + d;
    assert Join([b, c, d], '/') == b + "/" + Join([c, d], '/');
    assert Join([a, b, c, d], '/') == a + "/" + Join([b, c, d], '/');
  }

  function CertTexts(certs: seq<ObjectRef>): (texts: seq<string>)
    ensures |texts| == |certs| && forall i | 0 <= i < |certs| :: texts[i] == CertText(certs[i])
  {
    seq(|certs|, i requires 0 <= i < |certs| => CertText(certs[i]))
  }

  /** The fields of the printed key: the last ones are optional. */
  function Fields(k: ServiceKey): seq<string> {
    [k.uid, k.namespace, k.name, Decimal(k.port)]
    + (if k.appProtocol.Some? then [k.appProtocol.value] else [])
    + CertTexts(k.certs)
  }

  /** Names as Kubernetes allows them: no slash anywhere and no dot in a namespace (section 2.1 of RFC 1123). Of the
      application protocol, "http1" or "http2" where the operator knows it, the same is asked. */
  ghost predicate ValidKey(k: ServiceKey) {
    && '/' !in k.uid && '/' !in k.namespace && '/' !in k.name
    && (k.appProtocol.Some? ==> '/' !in k.appProtocol.value && '.' !in k.appProtocol.value)
    && forall r <- k.certs :: '/' !in r.name && '/' !in r.namespace && '.' !in r.namespace
  }

  lemma FieldsHaveNoSlash(k: ServiceKey)
    requires ValidKey(k)
    ensures forall t <- Fields(k) :: '/' !in t
  {
    DecimalHasNo(k.port, '/');
    forall i | 0 <= i < |k.certs|
      ensures '/' !in CertTexts(k.certs)[i]
    {
      assert k.certs[i] in k.certs;
    }
  }

  /** Only a certificate's field has a dot, so the fifth field tells whether there is a protocol. */
  lemma ProtocolShows(k: ServiceKey)
    requires ValidKey(k)
    ensures k.appProtocol.Some? <==> |Fields(k)| > 4 && '.' !in Fields(k)[4]
  {
    if k.appProtocol.None? && k.certs != [] {
      assert Fields(k)[4] == CertText(k.certs[0]);
      assert CertText(k.certs[0])[|k.certs[0].name|] == '.';
    }
  }

  lemma CertsShow(a: seq<ObjectRef>, b: seq<ObjectRef>)
    requires CertTexts(a) == CertTexts(b)
    requires (forall r <- a :: '.' !in r.namespace) && (forall r <- b :: '.' !in r.namespace)
    ensures a == b
  {
    assert |CertTexts(a)| == |CertTexts(b)|;
    forall i | 0 <= i < |a|
      ensures a[i] == b[i]
    {
      assert CertTexts(a)[i] == CertText(a[i]) && CertTexts(b)[i] == CertText(b[i]);
      assert a[i] in a && b[i] in b;
      CutOnceFromTheEnd(a[i].name, a[i].namespace, b[i].name, b[i].namespace, '.');
    }
  }

  lemma FieldsInjective(k: ServiceKey, l: ServiceKey)
    requires ValidKey(k) && ValidKey(l) && Fields(k) == Fields(l)
    ensures k == l
  {
    ProtocolShows(k);
    ProtocolShows(l);
    var n := if k.appProtocol.Some? then 5 else 4;
    assert CertTexts(k.certs) == Fields(k)[n..] && CertTexts(l.certs) == Fields(l)[n..];
    CertsShow(k.certs, l.certs);
    assert Fields(k)[0] == Fields(l)[0] && Fields(k)[1] == Fields(l)[1] && Fields(k)[2] == Fields(l)[2];
    assert Decimal(k.port) == Fields(k)[3] == Fields(l)[3] == Decimal(l.port);
    DecimalInjective(k.port, l.port);
    if n == 5 {
      assert k.appProtocol.value == Fields(k)[4] && l.appProtocol.value == Fields(l)[4];
    }
  }

  /** Printed keys are injective: two services print the same exactly when all but their schemes agree. */
  lemma KeysInjective(s: Service, t: Service)
    requires ValidKey(Key(s)) && ValidKey(Key(t))
    ensures Join(Fields(Key(s)), '/') == Join(Fields(Key(t)), '/') <==> s.(scheme := t.scheme) == t
  {
    if Join(Fields(Key(s)), '/') == Join(Fields(Key(t)), '/') {
      FieldsHaveNoSlash(Key(s));
      FieldsHaveNoSlash(Key(t));
      JoinInjective(Fields(Key(s)), Fields(Key(t)), '/');
      FieldsInjective(Key(s), Key(t));
    }
  }

  /** A protocol with a dot can be mistaken for a certificate. */
  lemma UnknownProtocolCollides(k: ServiceKey, ref: ObjectRef)
    requires k.appProtocol.None? && k.certs == [ref]
    ensures var l := k.(appProtocol := Some(CertText(ref)), certs := []);
            k != l && Fields(k) == Fields(l)
  {
  }
}
