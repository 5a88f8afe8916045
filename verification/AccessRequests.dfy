/** parseAccessRequest of internal/central/rbac.go, which decides what a kubectl
    command will be authorized as, and the namespace loop of runKubectl in
    internal/cli/kubectl.go, which suggests a fallback namespace for it. */
module AccessRequests {
  datatype AccessRequest = AccessRequest(cluster: string, namespace: string, resource: string, verb: string)

  const POD_SCOPED_VERBS := {"logs", "exec", "attach", "port-forward", "cp"}

  /** The flag forms that take their value from the next argument. */
  predicate IsPairFlag(a: string) {
    a == "-n" || a == "--namespace"
  }

  predicate IsAllFlag(a: string) {
    a == "-A" || a == "--all-namespaces"
  }

  /** Argument `i`, read as a flag, names a namespace. */
  predicate Sets(args: seq<string>, i: nat)
    requires i < |args|
  {
    || IsAllFlag(args[i])
    || (IsPairFlag(args[i]) && i + 1 < |args|)
    || "--namespace=" <= args[i]
    || "-n=" <= args[i]
  }

  function ValueAt(args: seq<string>, i: nat): string
    requires i < |args| && Sets(args, i)
  {
    if IsAllFlag(args[i]) then "*"
    else if IsPairFlag(args[i]) && i + 1 < |args| then args[i + 1]
    else if "--namespace=" <= args[i] then args[i][|"--namespace="|..]
    else args[i][|"-n="|..]
  }

  lemma FlagFormsAreDisjoint(a: string)
    ensures IsPairFlag(a) ==> !IsAllFlag(a) && !("--namespace=" <= a) && !("-n=" <= a)
    ensures IsAllFlag(a) ==> !("--namespace=" <= a) && !("-n=" <= a)
  {
    assert "-n="[1] == 'n' && "--namespace"[1] == '-' && "--all-namespaces"[1] == '-';
    assert "--namespace="[2] == 'n' && "--all-namespaces"[2] == 'a';
  }

  /** Arguments consumed by the scan at position `i`. */
  function Width(args: seq<string>, i: nat): nat
    requires i < |args|
  {
    if IsPairFlag(args[i]) && i + 1 < |args| then 2 else 1
  }

  /** The left-to-right scan from position `i`, with `ns` found so far. */
  function ScanNamespace(args: seq<string>, i: nat, ns: string): string
    decreases |args| - i
  {
    if i >= |args| then ns
    else ScanNamespace(args, i + Width(args, i), if Sets(args, i) then ValueAt(args, i) else ns)
  }

  function FirstPlain(args: seq<string>): string {
    if args == [] then ""
    else if "-" <= args[0] then FirstPlain(args[1..])
    else args[0]
  }

  /** The text before the first '/', all of it when there is none. */
  function CutSlash(s: string): (r: string)
    ensures r <= s && '/' !in r
    ensures r == s || s[|r|] == '/'
  {
    if s == "" || s[0] == '/' then "" else [s[0]] + CutSlash(s[1..])
  }

  function WithDefault(ns: string): string {
    if ns == "" then "default" else ns
  }

  function Parse(cluster: string, command: seq<string>, fallback: string): AccessRequest {
    if command == [] then AccessRequest(cluster, WithDefault(fallback), "", "")
    else
      var verb, args := command[0], command[1..];
      var resource := if verb in POD_SCOPED_VERBS then "pods" else FirstPlain(args);
      AccessRequest(cluster, ScanNamespace(args, 0, WithDefault(fallback)), CutSlash(resource), verb)
  }

  /** Argument `i` is the first that is no flag. */
  predicate IsFirstPlain(args: seq<string>, i: nat) {
    i < |args| && !("-" <= args[i]) && forall j | 0 <= j < i :: "-" <= args[j]
  }

  /** `r` is what comes before the first '/' of `s`. */
  predicate IsCut(s: string, r: string) {
    r <= s && '/' !in r && (r == s || s[|r|] == '/')
  }

  /** The namespace that argument `i`, a flag, names. */
  ghost predicate Names(args: seq<string>, i: nat, ns: string)
    requires i < |args|
  {
    && (args[i] in {"-A", "--all-namespaces"} ==> ns == "*")
    && (args[i] in {"-n", "--namespace"} ==> i + 1 < |args| && ns == args[i + 1])
    && (forall v: string | args[i] == "--namespace=" + v :: ns == v)
    && (forall v: string | args[i] == "-n=" + v :: ns == v)
  }

  /** What the request is, in terms of the arguments after the verb. */
  method ParseAccessRequest(cluster: string, command: seq<string>, fallback: string)
    returns (req: AccessRequest)
    ensures req == Parse(cluster, command, fallback)
    ensures req.cluster == cluster && req.verb == if command == [] then "" else command[0]
    ensures command == [] ==> req.resource == "" && req.namespace == if fallback == "" then "default" else fallback
    ensures command != [] ==> IsNamespaceOf(command[1..], fallback, req.namespace)
    ensures command != [] ==> IsResourceOf(command[0], command[1..], req.resource)
  {
    req := AccessRequest(cluster, fallback, "", "");
    if req.namespace == "" {
      req := req.(namespace := "default");
    }
    if |command| == 0 {
      return;
    }
    var namespace := FindNamespace(command[1..], req.namespace);
    var resource := FindResource(command[0], command[1..]);
    req := AccessRequest(cluster, namespace, resource, command[0]);
  }

  /** The last effective flag decides, otherwise the fallback or "default". */
  ghost predicate IsNamespaceOf(args: seq<string>, fallback: string, ns: string) {
    && (forall i | LastEffective(args, i) :: Names(args, i, ns))
    && (NamesNamespace(args) ==> exists i :: LastEffective(args, i))
    && (!NamesNamespace(args) ==> ns == if fallback == "" then "default" else fallback)
  }

  ghost predicate IsResourceOf(verb: string, args: seq<string>, resource: string) {
    if verb in {"logs", "exec", "attach", "port-forward", "cp"} then resource == "pods"
    else if exists i: nat :: IsFirstPlain(args, i) then exists i: nat :: IsFirstPlain(args, i) && IsCut(args[i], resource)
    else resource == ""
  }

  method FindNamespace(args: seq<string>, initial: string) returns (namespace: string)
    requires initial != ""
    ensures namespace == ScanNamespace(args, 0, initial)
    ensures IsNamespaceOf(args, initial, namespace)
  {
    namespace := initial;
    var i := 0;
    while i < |args|
      invariant ScanNamespace(args, i, namespace) == ScanNamespace(args, 0, initial)
    {
      var a := args[i];
      FlagFormsAreDisjoint(a);
      if a == "-A" || a == "--all-namespaces" {
        namespace := "*";
      } else if a == "-n" || a == "--namespace" {
        if i + 1 < |args| {
          namespace := args[i + 1];
          i := i + 1;
        }
      } else if "--namespace=" <= a {
        namespace := a[|"--namespace="|..];
      } else if "-n=" <= a {
        namespace := a[|"-n="|..];
      }
      i := i + 1;
    }
    ScanIsNamed(args, initial);
  }

  lemma ScanIsNamed(args: seq<string>, initial: string)
    requires initial != ""
    ensures IsNamespaceOf(args, initial, ScanNamespace(args, 0, initial))
  {
    ScanFindsLastEffective(args, initial);
    forall i | LastEffective(args, i)
      ensures Names(args, i, ScanNamespace(args, 0, initial))
    {
      NamedIsEffective(args);
      var k :| LastEffective(args, k) && ScanNamespace(args, 0, initial) == ValueAt(args, k);
      LastEffectiveIsUnique(args, i, k);
      ValueIsNamed(args, i);
    }
  }

  lemma ValueIsNamed(args: seq<string>, i: nat)
    requires i < |args| && Sets(args, i)
    ensures Names(args, i, ValueAt(args, i))
  {
    var a := args[i];
    FlagFormsAreDisjoint(a);
    forall v: string | a == "--namespace=" + v
      ensures ValueAt(args, i) == v
    {
      assert "--namespace=" <= a && a[|"--namespace="|..] == v;
    }
    forall v: string | a == "-n=" + v
      ensures ValueAt(args, i) == v
    {
      assert "-n=" <= a && a[|"-n="|..] == v;
      assert a[1] == 'n';
    }
  }

  method FindResource(verb: string, args: seq<string>) returns (resource: string)
    ensures resource == CutSlash(if verb in POD_SCOPED_VERBS then "pods" else FirstPlain(args))
    ensures IsResourceOf(verb, args, resource)
  {
    if verb in POD_SCOPED_VERBS {
      assert CutSlash("pods") == "pods";
      return "pods";
    }
    var j := 0;
    while j < |args| && "-" <= args[j]
      invariant j <= |args| && forall k | 0 <= k < j :: "-" <= args[k]
      invariant FirstPlain(args[j..]) == FirstPlain(args)
    {
      j := j + 1;
    }
    resource := if j < |args| then CutSlash(args[j]) else "";
    assert j < |args| ==> IsFirstPlain(args, j) && IsCut(args[j], resource);
  }

  // ----- what the scan finds -----------------------------------------------

  /** Argument `i` is the value of a preceding -n or --namespace. */
  predicate Swallowed(args: seq<string>, i: nat)
    requires i < |args|
  {
    i > 0 && IsPairFlag(args[i - 1]) && !Swallowed(args, i - 1)
  }

  /** Argument `i` is a namespace flag and not the value of another one. */
  predicate Effective(args: seq<string>, i: nat)
    requires i < |args|
  {
    Sets(args, i) && !Swallowed(args, i)
  }

  /** Right before argument `i` stand exactly `k` separate flags. */
  predicate FlagsBefore(args: seq<string>, i: nat, k: nat) {
    && k <= i <= |args|
    && (forall j | i - k <= j < i :: args[j] in {"-n", "--namespace"})
    && (k < i ==> args[i - k - 1] !in {"-n", "--namespace"})
  }

  lemma {:induction false} SwallowedIsOdd(args: seq<string>, i: nat) returns (k: nat)
    requires i < |args|
    ensures FlagsBefore(args, i, k) && (Swallowed(args, i) <==> k % 2 == 1)
  {
    if i == 0 || !IsPairFlag(args[i - 1]) {
      k := 0;
    } else {
      k := SwallowedIsOdd(args, i - 1);
      k := k + 1;
    }
  }

  /** A flag in one of its forms is effective exactly if the number of separate
      flags right before it is even; otherwise the last of those takes it as its
      value. */
  lemma EffectiveExactly(args: seq<string>, i: nat, k: nat)
    requires i < |args| && FlagsBefore(args, i, k)
    ensures Effective(args, i) <==>
              && (|| args[i] in {"-A", "--all-namespaces"} || "--namespace=" <= args[i] || "-n=" <= args[i]
                  || (args[i] in {"-n", "--namespace"} && i + 1 < |args|))
              && k % 2 == 0
  {
    var n := SwallowedIsOdd(args, i);
  }

  predicate LastEffective(args: seq<string>, i: nat) {
    i < |args| && Effective(args, i) && forall j | i < j < |args| :: !Effective(args, j)
  }

  /** Some argument looks like a namespace flag that has its value. */
  predicate NamesNamespace(args: seq<string>) {
    exists i | 0 <= i < |args| :: Sets(args, i)
  }

  lemma {:induction false} ScanFromUnswallowed(args: seq<string>, i: nat, ns: string)
    requires i < |args| ==> !Swallowed(args, i)
    ensures (exists k :: i <= k && LastEffective(args, k) && ScanNamespace(args, i, ns) == ValueAt(args, k))
         || ((forall k | i <= k < |args| :: !Effective(args, k)) && ScanNamespace(args, i, ns) == ns)
    decreases |args| - i
  {
    if i < |args| {
      var next := i + Width(args, i);
      ScanFromUnswallowed(args, next, if Sets(args, i) then ValueAt(args, i) else ns);
      if (forall k | next <= k < |args| :: !Effective(args, k)) && Sets(args, i) {
        assert LastEffective(args, i);
      }
    }
  }

  /** The first flag with a value is always effective. */
  lemma NamedIsEffective(args: seq<string>)
    ensures NamesNamespace(args) <==> exists i | 0 <= i < |args| :: Effective(args, i)
  {
    if NamesNamespace(args) {
      var i :| 0 <= i < |args| && Sets(args, i);
      FirstIsEffective(args, i);
    }
    if i :| 0 <= i < |args| && Effective(args, i) {
      assert Sets(args, i);
    }
  }

  lemma {:induction false} FirstIsEffective(args: seq<string>, i: nat)
    requires i < |args| && Sets(args, i)
    ensures exists k :: 0 <= k <= i && Effective(args, k)
  {
    if Swallowed(args, i) {
      assert Sets(args, i - 1);
      FirstIsEffective(args, i - 1);
    } else {
      assert Effective(args, i);
    }
  }

  /** The server uses the last namespace flag that is not itself the value of
      one; only a command without any leaves the initial namespace in place. */
  lemma ScanFindsLastEffective(args: seq<string>, ns: string)
    ensures NamesNamespace(args) ==>
              exists i :: LastEffective(args, i) && ScanNamespace(args, 0, ns) == ValueAt(args, i)
    ensures !NamesNamespace(args) ==> ScanNamespace(args, 0, ns) == ns
  {
    ScanFromUnswallowed(args, 0, ns);
    NamedIsEffective(args);
  }

  lemma LastEffectiveIsUnique(args: seq<string>, i: nat, j: nat)
    requires LastEffective(args, i) && LastEffective(args, j)
    ensures i == j
  {
  }

  // ----- the CLI's counterpart ---------------------------------------------

  /** The CLI takes the first -n or --namespace that has a next argument, over
      the whole command, the verb's position included. */
  function CliNamespace(args: seq<string>): string {
    if args == [] then ""
    else if IsPairFlag(args[0]) && |args| > 1 then args[1]
    else CliNamespace(args[1..])
  }

  method ExtractNamespace(args: seq<string>) returns (namespace: string)
    ensures namespace == CliNamespace(args)
    ensures (exists i :: FirstPair(args, i) && namespace == args[i + 1])
         || ((forall i | 0 <= i < |args| - 1 :: !IsPairFlag(args[i])) && namespace == "")
  {
    namespace := "";
    var i := 0;
    while i < |args|
      invariant i <= |args|
      invariant forall j | 0 <= j < i && j + 1 < |args| :: !IsPairFlag(args[j])
      invariant CliNamespace(args[i..]) == CliNamespace(args)
    {
      if (args[i] == "-n" || args[i] == "--namespace") && i + 1 < |args| {
        namespace := args[i + 1];
        assert FirstPair(args, i);
        return;
      }
      i := i + 1;
    }
  }

  predicate FirstPair(args: seq<string>, i: nat) {
    i + 1 < |args| && IsPairFlag(args[i]) && forall j | 0 <= j < i :: !IsPairFlag(args[j])
  }

  /** A namespace the CLI finds after the first token is one the server's scan
      sees as well. */
  lemma {:induction false} CliFindsNamed(args: seq<string>)
    ensures CliNamespace(args) != "" ==> NamesNamespace(args)
  {
    if args != [] {
      if IsPairFlag(args[0]) && |args| > 1 {
        assert Sets(args, 0);
      } else {
        CliFindsNamed(args[1..]);
        if CliNamespace(args) != "" {
          var i :| 0 <= i < |args[1..]| && Sets(args[1..], i);
          assert Sets(args, i + 1);
        }
      }
    }
  }

  /** The first token is a namespace flag, its value is a namespace of its own,
      and no later argument names one: then only the CLI sees that flag. */
  predicate OnlyCliSees(command: seq<string>) {
    && |command| > 1
    && IsPairFlag(command[0])
    && command[1] != "" && command[1] != "default"
    && !NamesNamespace(command[1..])
  }

  /** The two parsers agree, in that the CLI's suggestion changes nothing about
      the access that is checked, exactly when not OnlyCliSees(command). */
  lemma ParsersAgree(cluster: string, command: seq<string>)
    ensures Parse(cluster, command, CliNamespace(command)) == Parse(cluster, command, "")
       <==> !OnlyCliSees(command)
  {
    if command != [] {
      var args, found := command[1..], CliNamespace(command);
      ScanFindsLastEffective(args, WithDefault(found));
      ScanFindsLastEffective(args, "default");
      if NamesNamespace(args) {
        var i :| LastEffective(args, i) && ScanNamespace(args, 0, WithDefault(found)) == ValueAt(args, i);
        var j :| LastEffective(args, j) && ScanNamespace(args, 0, "default") == ValueAt(args, j);
        LastEffectiveIsUnique(args, i, j);
      } else {
        CliFindsNamed(args);
      }
    }
  }

  /** In particular for every command that starts with a verb. */
  lemma ParsersAgreeOnVerbFirst(cluster: string, command: seq<string>)
    requires command != [] ==> !IsPairFlag(command[0])
    ensures Parse(cluster, command, CliNamespace(command)) == Parse(cluster, command, "")
  {
    ParsersAgree(cluster, command);
  }
}
