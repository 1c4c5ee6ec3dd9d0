/** Properties that exist once for each NameNode: their names and values come from templates that
    are formatted twice, first with the cluster's names and then with each ordinal. */
module Templates {
  import opened Text
  import opened PodNames
  import opened XmlProperties

  predicate HasVerb(template: string)
  {
    exists i | 0 <= i < |template| - 1 :: template[i] == '%' && template[i + 1] == 'd'
  }

  function ContentAt(keyTemplate: string, valueTemplate: string, i: nat): Property
  {
    Property(Sprintf(keyTemplate, [Num(i)]), if HasVerb(valueTemplate) then Sprintf(valueTemplate, [Num(i)]) else valueTemplate)
  }

  function XmlContent(n: nat, keyTemplate: string, valueTemplate: string): (ps: seq<Property>)
    ensures |ps| == n && forall i | 0 <= i < n :: ps[i] == ContentAt(keyTemplate, valueTemplate, i)
  {
    seq(n, i requires 0 <= i < n => ContentAt(keyTemplate, valueTemplate, i))
  }

  method CreateXmlContentByReplicas(replicas: int, keyTemplate: string, valueTemplate: string) returns (content: Outcome<seq<Property>>)
    ensures content == if replicas >= 0 then Returned(XmlContent(replicas, keyTemplate, valueTemplate)) else Panicked
    ensures content.Returned? && (forall k | 0 <= k < |valueTemplate| - 1 :: valueTemplate[k] == '%' ==> valueTemplate[k + 1] != 'd') ==>
              forall i | 0 <= i < replicas :: content.value[i].value == valueTemplate
  {
    if replicas < 0 {
      return Panicked;
    }
    var ps: seq<Property> := [];
    for i := 0 to replicas
      invariant |ps| == i && forall j | 0 <= j < i :: ps[j] == ContentAt(keyTemplate, valueTemplate, j)
    {
      var key := Sprintf(keyTemplate, [Num(i)]);
      var value := valueTemplate;
      if HasVerb(valueTemplate) {
        value := Sprintf(valueTemplate, [Num(i)]);
      }
      ps := ps + [Property(key, value)];
    }
    assert ps == XmlContent(replicas, keyTemplate, valueTemplate);
    content := Returned(ps);
  }

  function DnsDomain(service: string, nameSpace: string, clusterDomain: string, port: int): string
  {
    Sprintf("%s.%s.svc.%s:%d", [Str(service), Str(nameSpace), Str(clusterDomain), Num(port)])
  }

  lemma DnsFormat()
    ensures "%s.%s.svc.%s:%d" == "%s" + ("." + ("%s" + (".svc." + ("%s" + (":" + ("%d" + ""))))))
  {
  }

  lemma DnsDomainText(service: string, nameSpace: string, clusterDomain: string, port: nat)
    ensures DnsDomain(service, nameSpace, clusterDomain, port) ==
            service + ("." + (nameSpace + (".svc." + (clusterDomain + (":" + (Itoa(port) + ""))))))
  {
    var a4 := [Num(port)] + [];
    var a3 := [Str(clusterDomain)] + a4;
    var a2 := [Str(nameSpace)] + a3;
    var f4 := "%d" + "";
    var f3 := "%s" + (":" + f4);
    var f2 := "%s" + (".svc." + f3);
    SprintfNum("", port, []);
    SprintfStrThen(clusterDomain, ":", f4, a4);
    SprintfStrThen(nameSpace, ".svc.", f3, a3);
    SprintfStrThen(service, ".", f2, a2);
    DnsFormat();
    assert [Str(service), Str(nameSpace), Str(clusterDomain), Num(port)] == [Str(service)] + a2;
  }

  function KeyTemplate(family: string, instanceName: string, statefulSet: string): string
  {
    Sprintf(family + "%s.%s-%%d", [Str(instanceName), Str(statefulSet)])
  }

  function ValueTemplate(statefulSet: string, domain: string): string
  {
    Sprintf("%s-%%d.%s", [Str(statefulSet), Str(domain)])
  }

  /** The key of one NameNode in a family of properties. */
  function KeyFor(family: string, instanceName: string, id: string): string
  {
    family + (instanceName + ("." + id))
  }

  lemma KeyForInjective(family: string, instanceName: string, a: string, b: string)
    requires KeyFor(family, instanceName, a) == KeyFor(family, instanceName, b)
    ensures a == b
  {
    var n := |family| + |instanceName| + 1;
    assert KeyFor(family, instanceName, a)[n..] == a;
    assert KeyFor(family, instanceName, b)[n..] == b;
  }

  lemma KeyOnce(family: string, instanceName: string, statefulSet: string)
    requires '%' !in family
    ensures KeyTemplate(family, instanceName, statefulSet) == family + (instanceName + ("." + (statefulSet + ("-" + ("%d" + "")))))
  {
    var a2 := [Str(statefulSet)] + [];
    var f3 := "%%" + "d";
    var f2 := "%s" + ("-" + f3);
    SprintfText("d");
    SprintfPercent("d", []);
    SprintfStrThen(statefulSet, "-", f3, []);
    SprintfStrThen(instanceName, ".", f2, a2);
    assert "%s.%s-%%d" == "%s" + ("." + f2);
    assert [Str(instanceName), Str(statefulSet)] == [Str(instanceName)] + a2;
    SprintfPlain(family, "%s.%s-%%d", [Str(instanceName)] + a2);
    assert "%" + "d" == "%d" + "";
  }

  lemma KeyTwice(family: string, instanceName: string, statefulSet: string, i: nat)
    requires '%' !in family && '%' !in instanceName && '%' !in statefulSet
    ensures Sprintf(KeyTemplate(family, instanceName, statefulSet), [Num(i)]) == KeyFor(family, instanceName, PodName(statefulSet, i))
  {
    KeyOnce(family, instanceName, statefulSet);
    var arg := [Num(i)] + [];
    assert [Num(i)] == arg;
    SprintfNum("", i, []);
    SprintfPlain("-", "%d" + "", arg);
    SprintfPlain(statefulSet, "-" + ("%d" + ""), arg);
    SprintfPlain(".", statefulSet + ("-" + ("%d" + "")), arg);
    SprintfPlain(instanceName, "." + (statefulSet + ("-" + ("%d" + ""))), arg);
    SprintfPlain(family, instanceName + ("." + (statefulSet + ("-" + ("%d" + "")))), arg);
    assert Itoa(i) + "" == Itoa(i);
    PodNameText(statefulSet, i);
  }

  lemma ValueFormat()
    ensures "%s-%%d.%s" == "%s" + ("-" + ("%%" + ("d." + ("%s" + ""))))
  {
  }

  lemma ValueOnce(statefulSet: string, domain: string)
    ensures ValueTemplate(statefulSet, domain) == statefulSet + ("-" + ("%d" + ("." + domain)))
  {
    var a2 := [Str(domain)] + [];
    var f2 := "%%" + ("d." + ("%s" + ""));
    SprintfStr("", domain, []);
    SprintfPlain("d.", "%s" + "", a2);
    SprintfPercent("d." + ("%s" + ""), a2);
    SprintfStrThen(statefulSet, "-", f2, a2);
    ValueFormat();
    assert [Str(statefulSet), Str(domain)] == [Str(statefulSet)] + a2;
    assert "%" + ("d." + (domain + "")) == "%d" + ("." + domain);
  }

  lemma ValueTwice(statefulSet: string, domain: string, i: nat)
    requires '%' !in statefulSet && '%' !in domain
    ensures Sprintf(ValueTemplate(statefulSet, domain), [Num(i)]) == PodName(statefulSet, i) + ("." + domain)
  {
    ValueOnce(statefulSet, domain);
    var arg := [Num(i)] + [];
    assert [Num(i)] == arg;
    SprintfText("." + domain);
    SprintfNum("." + domain, i, []);
    SprintfPlain("-", "%d" + ("." + domain), arg);
    SprintfPlain(statefulSet, "-" + ("%d" + ("." + domain)), arg);
    PodNameText(statefulSet, i);
    RegroupDash(statefulSet, Itoa(i), "." + domain);
  }

  lemma RegroupDash(a: string, b: string, c: string)
    ensures a + ("-" + (b + c)) == (a + ("-" + b)) + c
  {
  }

  lemma ValueHasVerb(statefulSet: string, domain: string)
    ensures HasVerb(ValueTemplate(statefulSet, domain))
  {
    ValueOnce(statefulSet, domain);
    var template := statefulSet + ("-" + ("%d" + ("." + domain)));
    assert template[|statefulSet| + 1] == '%' && template[|statefulSet| + 2] == 'd';
  }
}
