/**
  renderConsumerValues: the values a component's chart gets. Go iterates maps in any order, so
  the loops run over an enumeration of the keys that is input; the result does not depend on
  it, which is why observe recognises the Job that submit made.
 */
module ConsumerValues {
  import opened Wrappers
  import opened Template

  type Bindings = map<string, map<string, string>>

  /** RenderMap on a chart's values; None when a template does not render. */
  type Renderer = (map<string, string>, Bindings) -> Option<map<string, string>>

  datatype RenderError = NotReady | RenderFailed | SecretClash

  const SECRET_VALUE := "extraEnvVarsSecret"

  /** The parts of an environment that enter. */
  datatype Spec = Spec(name: string, env: map<string, EnvValue>, values: map<string, string>)

  function BindingName(env: Spec, component: string): string {
    env.name + "-" + component + "-binding"
  }

  function EffectiveEnv(env: Spec, c: ComponentSpec): map<string, EnvValue> {
    c.env + env.env
  }

  /** The components whose secrets are referred to. */
  function Referred(m: map<string, EnvValue>): set<string> {
    set k | k in m && m[k].SecretKeyRef? :: m[k].component
  }

  function SecretsOf(env: Spec, referred: set<string>): set<string> {
    set x | x in referred :: BindingName(env, x)
  }

  /** The secrets a chart is asked to take its variables from. */
  function Asked(values: map<string, string>, secrets: set<string>): set<string> {
    secrets + if SECRET_VALUE in values then {values[SECRET_VALUE]} else {}
  }

  predicate OneAtMost(s: set<string>) {
    forall x, y | x in s && y in s :: x == y
  }

  /** What comes of a component, without any order. */
  ghost function Rendered(env: Spec, c: ComponentSpec, bindings: Bindings, render: Renderer): Result<ComponentSpec,
        RenderError> {
    if c.helm.None? then Ok(c)
    else
      var effective := EffectiveEnv(env, c);
      var referred := Referred(effective);
      if !(referred <= bindings.Keys) then Err(NotReady)
      else
        var rendered := render(c.helm.value, bindings);
        if rendered.None? then Err(RenderFailed)
        else
          var values := rendered.value + env.values;
          var secrets := SecretsOf(env, referred);
          if secrets == {} then Ok(c.(env := effective, helm := Some(values)))
          else if !OneAtMost(Asked(values, secrets)) then Err(SecretClash)
          else var secret :| secret in secrets; Ok(c.(env := effective, helm := Some(values[SECRET_VALUE := secret])))
  }

  /** Everything is visited; nothing is said of the order. */
  predicate Enumerates(order: seq<string>, m: map<string, EnvValue>) {
    (forall k | k in order :: k in m) && (forall k | k in m :: k in order)
  }

  /** The secrets of the first entries visited. */
  function Visited(env: Spec, m: map<string, EnvValue>, order: seq<string>): set<string> {
    set i | 0 <= i < |order| && order[i] in m && m[order[i]].SecretKeyRef? :: BindingName(env, m[order[i]].component)
  }

  lemma VisitedStep(env: Spec, m: map<string, EnvValue>, order: seq<string>, i: nat)
    requires i < |order| && order[i] in m
    ensures Visited(env, m, order[..i + 1]) ==
            Visited(env, m, order[..i])
                + (if m[order[i]].SecretKeyRef? then {BindingName(env, m[order[i]].component)} else {})
  {
    var before, after := order[..i], order[..i + 1];
    assert after == before + [order[i]];
    forall x | x in Visited(env, m, before) ensures x in Visited(env, m, after) {
      var j :| 0 <= j < |before| && before[j] in m && m[before[j]].SecretKeyRef?
          && BindingName(env, m[before[j]].component) == x;
      assert after[j] == before[j];
    }
    if m[order[i]].SecretKeyRef? { assert after[i] == order[i]; }
  }

  lemma VisitedAll(env: Spec, m: map<string, EnvValue>, order: seq<string>)
    requires Enumerates(order, m)
    ensures Visited(env, m, order) == SecretsOf(env, Referred(m))
  {
    forall x | x in SecretsOf(env, Referred(m)) ensures x in Visited(env, m, order) {
      var k :| k in m && m[k].SecretKeyRef? && BindingName(env, m[k].component) == x;
      var i :| 0 <= i < |order| && order[i] == k;
      assert order[i] in m;
    }
  }

  /** The first loop. */
  method AllProvisioned(m: map<string, EnvValue>, bindings: Bindings, order: seq<string>) returns (all: bool)
    requires Enumerates(order, m)
    ensures all <==> Referred(m) <= bindings.Keys
  {
    for i := 0 to |order|
      invariant forall j | 0 <= j < i && m[order[j]].SecretKeyRef? :: m[order[j]].component in bindings
    {
      if m[order[i]].SecretKeyRef? && m[order[i]].component !in bindings {
        assert m[order[i]].component in Referred(m);
        return false;
      }
    }
    forall x | x in Referred(m) ensures x in bindings {
      var k :| k in m && m[k].SecretKeyRef? && m[k].component == x;
      var i :| 0 <= i < |order| && order[i] == k;
    }
    return true;
  }

  /** What the second loop leaves in the values when no two of the secrets differ. */
  ghost predicate Settled(values0: map<string, string>, values: map<string, string>, secrets: set<string>) {
    && OneAtMost(Asked(values0, secrets))
    && (secrets == {} ==> values == values0)
    && (forall x | x in secrets :: values == values0[SECRET_VALUE := x])
  }

  /** The second loop: every reference must come to the same secret. */
  method SettleSecret(env: Spec, m: map<string, EnvValue>, order: seq<string>, values0: map<string, string>)
    returns (values: Option<map<string, string>>)
    requires Enumerates(order, m)
    ensures var secrets := SecretsOf(env, Referred(m));
      if secrets == {} || OneAtMost(Asked(values0, secrets))
      then values.Some? && Settled(values0, values.value, secrets)
      else values.None?
  {
    var out := values0;
    assert Settled(values0, out, {}) by { assert Visited(env, m, order[..0]) == {}; }
    for i := 0 to |order|
      invariant Settled(values0, out, Visited(env, m, order[..i]))
    {
      VisitedStep(env, m, order, i);
      if m[order[i]].SecretKeyRef? {
        var bindingName := BindingName(env, m[order[i]].component);
        ghost var before := Visited(env, m, order[..i]);
        if SECRET_VALUE in out && out[SECRET_VALUE] != bindingName {
          ClashIsFinal(env, m, order, i, values0, out);
          return None;
        }
        SettledStep(values0, out, before, bindingName);
        out := out[SECRET_VALUE := bindingName];
      }
    }
    VisitedAll(env, m, order);
    assert order[..|order|] == order;
    return Some(out);
  }

  lemma SettledStep(values0: map<string, string>, values: map<string, string>, secrets: set<string>, name: string)
    requires Settled(values0, values, secrets)
    requires SECRET_VALUE in values ==> values[SECRET_VALUE] == name
    ensures Settled(values0, values[SECRET_VALUE := name], secrets + {name})
  {
    forall x | x in secrets ensures x == name { assert values[SECRET_VALUE] == x; }
  }

  lemma ClashIsFinal(env: Spec, m: map<string, EnvValue>, order: seq<string>, i: nat, values0: map<string, string>,
        values: map<string, string>)
    requires Enumerates(order, m) && i < |order| && m[order[i]].SecretKeyRef?
    requires Settled(values0, values, Visited(env, m, order[..i]))
    requires SECRET_VALUE in values && values[SECRET_VALUE] != BindingName(env, m[order[i]].component)
    ensures SecretsOf(env, Referred(m)) != {} && !OneAtMost(Asked(values0, SecretsOf(env, Referred(m))))
  {
    var before := Visited(env, m, order[..i]);
    var secrets := SecretsOf(env, Referred(m));
    VisitedAll(env, m, order);
    var name := BindingName(env, m[order[i]].component);
    assert name in Visited(env, m, order);
    if x :| x in before {
      assert values[SECRET_VALUE] == x;
      var j :| 0 <= j < i && order[j] in m && m[order[j]].SecretKeyRef? && BindingName(env, m[order[j]].component) == x;
      assert x in Visited(env, m, order);
    } else {
      assert values == values0;
    }
  }

  /** renderConsumerValues: for every order in which the two loops may run. */
  method RenderConsumerValues(env: Spec, c: ComponentSpec, bindings: Bindings, render: Renderer, first: seq<string>,
        second: seq<string>)
    returns (out: Result<ComponentSpec, RenderError>)
    requires Enumerates(first, EffectiveEnv(env, c)) && Enumerates(second, EffectiveEnv(env, c))
    ensures out == Rendered(env, c, bindings, render)
  {
    hide Enumerates, Asked, OneAtMost;
    if c.helm.None? { return Ok(c); }
    var effective := c.env + env.env;
    var provisioned := AllProvisioned(effective, bindings, first);
    if !provisioned { return Err(NotReady); }
    var rendered := render(c.helm.value, bindings);
    if rendered.None? { return Err(RenderFailed); }
    var values := SettleSecret(env, effective, second, rendered.value + env.values);
    if values.None? { return Err(SecretClash); }
    out := Ok(c.(env := effective, helm := values));
  }

  /** A component that renders gets its variables from the one secret all its references are
      to, and those of a component it refers to are there. */
  lemma RenderedMeans(env: Spec, c: ComponentSpec, bindings: Bindings, render: Renderer, k: string)
    requires c.helm.Some? && Rendered(env, c, bindings, render).Ok?
    requires k in EffectiveEnv(env, c) && EffectiveEnv(env, c)[k].SecretKeyRef?
    ensures var out := Rendered(env, c, bindings, render).value;
      var component := EffectiveEnv(env, c)[k].component;
      && component in bindings && out.helm.Some? && SECRET_VALUE in out.helm.value
      && out.helm.value[SECRET_VALUE] == BindingName(env, component)
  {
    var component := EffectiveEnv(env, c)[k].component;
    assert component in Referred(EffectiveEnv(env, c));
    assert BindingName(env, component) in SecretsOf(env, Referred(EffectiveEnv(env, c)));
  }

  /** Whose word counts: the environment's variables go before the component's, and its values before those
      that the chart's templates render to; nothing else of the component changes. Only the secret is
      set over both, when one is referred to. */
  lemma RenderedKeeps(env: Spec, c: ComponentSpec, bindings: Bindings, render: Renderer, k: string)
    requires c.helm.Some? && Rendered(env, c, bindings, render).Ok?
    ensures var out := Rendered(env, c, bindings, render).value;
      && out.name == c.name && out.dependsOn == c.dependsOn && out.sharedRef == c.sharedRef
      && (k in out.env <==> k in env.env || k in c.env)
      && (k in env.env ==> out.env[k] == env.env[k])
      && (k in c.env && k !in env.env ==> out.env[k] == c.env[k])
    ensures var values := Rendered(env, c, bindings, render).value.helm;
      var rendered := render(c.helm.value, bindings);
      && values.Some? && rendered.Some?
      && (k != SECRET_VALUE || Referred(EffectiveEnv(env, c)) == {} ==>
            && (k in values.value <==> k in env.values || k in rendered.value)
            && (k in env.values ==> values.value[k] == env.values[k])
            && (k in rendered.value && k !in env.values ==> values.value[k] == rendered.value[k]))
  {
    if Referred(EffectiveEnv(env, c)) == {} { assert SecretsOf(env, {}) == {}; }
  }

  /** Two different binding secrets are never both served: rendering fails exactly when a
      secret is missing, a template does not render, or the secrets differ. */
  lemma RenderedFails(env: Spec, c: ComponentSpec, bindings: Bindings, render: Renderer)
    requires c.helm.Some?
    ensures var referred := Referred(EffectiveEnv(env, c));
      var out := Rendered(env, c, bindings, render);
      && (out == Err(NotReady) <==> exists x :: x in referred && x !in bindings)
      && (out == Err(RenderFailed) <==> referred <= bindings.Keys && render(c.helm.value, bindings).None?)
      && (out == Err(SecretClash) <==>
            referred <= bindings.Keys && render(c.helm.value, bindings).Some?
            && exists x, y :: x in referred && y != BindingName(env, x)
                 && y in Asked(render(c.helm.value, bindings).value + env.values, SecretsOf(env, referred)))
  {
    var referred := Referred(EffectiveEnv(env, c));
    if referred <= bindings.Keys && render(c.helm.value, bindings).Some? {
      var secrets := SecretsOf(env, referred);
      var asked := Asked(render(c.helm.value, bindings).value + env.values, secrets);
      if secrets != {} && !OneAtMost(asked) {
        var s :| s in secrets;
        var x :| x in referred && BindingName(env, x) == s;
        var a, b :| a in asked && b in asked && a != b;
        assert a != s || b != s;
      }
      if x, y :| x in referred && y != BindingName(env, x) && y in asked {
        assert BindingName(env, x) in secrets;
      }
    }
  }
}
