/**
 The tables that decide what becomes of a model argument, by the normal form of its name.
 */
module ModelArgTables {

  /** Arguments that shape what the model writes. These win over every other rule. */
  const GENERATION_FIELDS: set<string> :=
    GENERATION_FIELDS_A_TO_G + GENERATION_FIELDS_I_TO_P + GENERATION_FIELDS_R_TO_W

  const GENERATION_FIELDS_A_TO_G: set<string> :=
    { "additional_drop_params", "allowed_openai_params", "api_version", "audio", "candidate_count",
      "context_management", "custom_llm_provider", "do_sample", "drop_params", "frequency_penalty",
      "function_call", "functions", "guided_choice", "guided_decoding_backend", "guided_grammar", "guided_json",
      "guided_regex" }

  const GENERATION_FIELDS_I_TO_P: set<string> :=
    { "include_server_side_tool_invocations", "length_penalty", "logit_bias", "logprobs",
      "max_completion_tokens", "max_new_tokens", "max_output_tokens", "max_tokens", "min_p", "modalities",
      "mock_response", "mock_tool_calls", "n", "num_beams", "parallel_tool_calls", "prediction",
      "presence_penalty" }

  const GENERATION_FIELDS_R_TO_W: set<string> :=
    { "reasoning_effort", "repetition_penalty", "response_format", "safety_settings", "seed", "stop",
      "temperature", "thinking", "tool_choice", "tools", "top_k", "top_logprobs", "top_p", "typical_p",
      "verbosity", "web_search_options" }

  /** Arguments that hold further arguments. */
  const NESTED_FIELDS: set<string> :=
    { "context_window_fallback_dict", "context_window_fallbacks", "extra_body", "fallbacks", "model_alias_map",
      "provider_options" }

  /** Arguments about transport, credentials, cost and execution. */
  const EXCLUDED_FIELDS: set<string> :=
    EXCLUDED_FIELDS_A_TO_AU + EXCLUDED_FIELDS_AW_TO_AZ + EXCLUDED_FIELDS_B_TO_C + EXCLUDED_FIELDS_D_TO_H +
    EXCLUDED_FIELDS_I_TO_L + EXCLUDED_FIELDS_M_TO_N + EXCLUDED_FIELDS_O_TO_P + EXCLUDED_FIELDS_R_TO_S +
    EXCLUDED_FIELDS_T_TO_V

  const EXCLUDED_FIELDS_A_TO_AU: set<string> :=
    { "acompletion", "api_base", "api_key", "apikey", "auth", "authentication", "authorization" }

  const EXCLUDED_FIELDS_AW_TO_AZ: set<string> :=
    { "aws_access_key_id", "aws_bedrock_project_id", "aws_bedrock_runtime_endpoint", "aws_external_id",
      "aws_profile_name", "aws_region_name", "aws_role_name", "aws_secret_access_key", "aws_session_name",
      "aws_session_token", "aws_sts_endpoint", "aws_web_identity_token", "azure_ad_token", "azure_password",
      "azure_scope", "azure_username" }

  const EXCLUDED_FIELDS_B_TO_C: set<string> :=
    { "base_url", "batch_size", "bearer_token", "client", "client_id", "client_secret", "completion_call_id",
      "cookie", "cookies", "cooldown_time" }

  const EXCLUDED_FIELDS_D_TO_H: set<string> :=
    { "default_headers", "deployment_id", "enable_json_schema_validation", "endpoint", "extra_headers",
      "force_timeout", "gcs_bucket_name", "headers", "http_proxy", "https_proxy" }

  const EXCLUDED_FIELDS_I_TO_L: set<string> :=
    { "idempotency_key", "input_cost_per_second", "input_cost_per_token", "itpm", "litellm_call_id",
      "litellm_credential_name", "litellm_logging_obj", "litellm_session_id", "litellm_trace_id", "logger_fn" }

  const EXCLUDED_FIELDS_M_TO_N: set<string> :=
    { "max_budget", "max_parallel_requests", "max_retries", "metadata", "mock_delay", "mock_timeout", "model_info",
      "model_list", "no_log", "num_retries" }

  const EXCLUDED_FIELDS_O_TO_P: set<string> :=
    { "organization", "otpm", "output_cost_per_second", "output_cost_per_token", "parallel", "parallelism",
      "password", "port", "preset_cache_key", "prompt_cache_key", "prompt_cache_retention",
      "provider_specific_header", "proxy", "proxy_server_request" }

  const EXCLUDED_FIELDS_R_TO_S: set<string> :=
    { "request_timeout", "routing_key", "rpm", "safety_identifier", "service_tier", "shared_session", "ssl_verify",
      "store", "stream", "stream_options", "stream_timeout" }

  const EXCLUDED_FIELDS_T_TO_V: set<string> :=
    { "tenant_id", "timeout", "tpm", "traceparent", "user", "verbose", "vertex_ai_credentials", "vertex_ai_location",
      "vertex_ai_project", "vertex_credentials", "vertex_location", "vertex_project" }

  const EXCLUDED_TOKENS: set<string> :=
    { "apikey", "auth", "authentication", "authorization", "batch", "certificate", "concurrency", "cookie",
      "cookies", "credential", "credentials", "endpoint", "header", "headers", "host", "logger", "logging" } +
    { "parallelism", "password", "port", "proxy", "retry", "retries", "secret", "stream", "streaming",
      "telemetry", "timeout", "trace", "tracing", "uri", "url", "worker", "workers" }

  const EXCLUDED_SEQUENCES: seq<seq<string>> :=
    EXCLUDED_SEQUENCES_A_TO_E + EXCLUDED_SEQUENCES_I_TO_L + EXCLUDED_SEQUENCES_P_TO_W

  const EXCLUDED_SEQUENCES_A_TO_E: seq<seq<string>> :=
    [ ["access", "key"], ["access", "token"], ["api", "base"], ["api", "key"], ["auth", "token"], ["base", "url"],
      ["bearer", "token"], ["cache", "key"], ["csrf", "token"], ["encryption", "key"] ]

  const EXCLUDED_SEQUENCES_I_TO_L: seq<seq<string>> :=
    [ ["id", "token"], ["idempotency", "key"], ["log", "file"], ["log", "format"], ["log", "handler"],
      ["log", "level"], ["log", "path"] ]

  const EXCLUDED_SEQUENCES_P_TO_W: seq<seq<string>> :=
    [ ["parallel", "requests"], ["private", "key"], ["public", "key"], ["rate", "limit"], ["refresh", "token"],
      ["routing", "key"], ["secret", "key"], ["session", "token"], ["web", "identity", "token"] ]

  const SECRET_SUFFIXES: set<string> := { "key", "token" }
}
