/** The worker's bindings, as far as the core reads them. Where they are loaded
    from is outside this model; every operation receives them as a parameter. */
module Environment {
  import opened Wrappers

  /** `env.DEEPSEEK_API_KEY` and `env.ENV_TYPE`; `None` when the binding is unset. */
  datatype Env = Env(deepseekApiKey: Option<string>, envType: Option<string>)
}
