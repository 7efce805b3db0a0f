/** The components of an environment template. */
module Template {
  import opened Wrappers

  /** A value of a component's env: plain, or a key of the binding secret of a component. */
  datatype EnvValue = Plain(value: string) | SecretKeyRef(component: string, key: string)

  /** helm holds the chart's values when the component is a Helm release; sharedRef is empty
      unless the component consumes a shared one. */
  datatype ComponentSpec = ComponentSpec(
    name: string,
    dependsOn: seq<string>,
    sharedRef: string,
    helm: Option<map<string, string>>,
    env: map<string, EnvValue>)
}
