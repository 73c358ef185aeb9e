/** The moderation gate: the two global flags read from the environment,
    the per-message decision whether to moderate, and the mapping of the
    moderation service's reply to a safe/unsafe verdict. */
module Moderation {
  import opened Wrappers
  import opened Text

  /** The two global flags `FORCE_MODERATION` and `DISABLE_MODERATION`. */
  datatype Config = Config(forceModeration: bool, disableModeration: bool)

  /** The subject token that asks for moderation to be skipped. */
  const OverrideToken: string := "NO_MODERATION"

  /** `os.getenv('FORCE_MODERATION', 'true').lower() == 'true'`: an unset
      variable counts as `true`; a set one is on exactly when it spells
      `true` in any case. */
  function ParseForceModeration(env: Option<string>): (force: bool)
    ensures env.None? ==> force
    ensures env.Some? ==> (force <==> Lower(env.value) == "true")
  {
    Lower(env.GetOr("true")) == "true"
  }

  /** `os.getenv('DISABLE_MODERATION', 'false').lower() == 'false'`, as
      written: the flag is ON when the variable is unset or spells `false`,
      and OFF when it spells `true`, the reverse of what its name says. */
  function ParseDisableModeration(env: Option<string>): (disable: bool)
    ensures env.None? ==> disable
    ensures env.Some? ==> (disable <==> Lower(env.value) == "false")
  {
    Lower(env.GetOr("false")) == "false"
  }

  /** The reading the flag's name and default evidently intend: on exactly
      when the variable spells `true`, off when it is unset. */
  function ParseDisableModerationIntended(env: Option<string>): (disable: bool)
    ensures env.None? ==> !disable
    ensures env.Some? ==> (disable <==> Lower(env.value) == "true")
  {
    Lower(env.GetOr("false")) == "true"
  }

  /** The configuration the script builds at start-up from the two
      environment variables. */
  function ConfigFromEnv(forceEnv: Option<string>, disableEnv: Option<string>): (cfg: Config)
    ensures cfg.forceModeration == ParseForceModeration(forceEnv)
    ensures cfg.disableModeration == ParseDisableModeration(disableEnv)
  {
    Config(ParseForceModeration(forceEnv), ParseDisableModeration(disableEnv))
  }

  /** Whether a message with this subject is sent to the moderation service:
      never when moderation is disabled; always when it is forced (and not
      disabled); otherwise unless the upper-cased subject contains
      `NO_MODERATION`. */
  function ModerationRequired(cfg: Config, subject: string): (required: bool)
    ensures cfg.disableModeration ==> !required
    ensures !cfg.disableModeration && cfg.forceModeration ==> required
    ensures !cfg.disableModeration && !cfg.forceModeration ==>
              (required <==> !Contains(Upper(subject), OverrideToken))
  {
    !cfg.disableModeration && (cfg.forceModeration || !Contains(Upper(subject), OverrideToken))
  }

  /** The override token is recognised in any case: lower-casing the subject
      does not change the decision. */
  lemma OverrideIgnoresCase(cfg: Config, subject: string)
    ensures ModerationRequired(cfg, Lower(subject)) == ModerationRequired(cfg, subject)
  {
    UpperOfLower(subject);
  }

  /** A subject without an underscore cannot carry the override token, so
      unless moderation is disabled such a message is always moderated. */
  lemma PlainSubjectIsModerated(cfg: Config, subject: string)
    requires !cfg.disableModeration && '_' !in subject
    ensures ModerationRequired(cfg, subject)
  {
    var upper := Upper(subject);
    assert '_' !in upper by {
      forall i | 0 <= i < |upper| ensures upper[i] != '_' {
        assert subject[i] != '_';
      }
    }
    assert OverrideToken[2] == '_';
    AbsentCharExcludes(upper, OverrideToken, '_');
  }

  /** The force flag is read without regard to case. */
  lemma ForceFlagIgnoresCase(v: string)
    ensures ParseForceModeration(Some(Upper(v))) == ParseForceModeration(Some(v))
  {
    LowerOfUpper(v);
  }

  /** As written, an environment that sets neither variable disables
      moderation, so no subject is ever moderated. */
  lemma UnsetEnvironmentSkipsModeration(subject: string)
    ensures !ModerationRequired(ConfigFromEnv(None, None), subject)
  {
  }

  /** The two readings of `DISABLE_MODERATION` never both disable, and they
      disagree on the unset variable. */
  lemma DisableFlagInverted(env: Option<string>)
    ensures !(ParseDisableModeration(env) && ParseDisableModerationIntended(env))
    ensures env.None? ==> ParseDisableModeration(env) != ParseDisableModerationIntended(env)
  {
  }

  /** With the intended reading, an environment that sets neither variable
      moderates every message. */
  lemma IntendedDefaultModeratesAll(subject: string)
    ensures ModerationRequired(Config(ParseForceModeration(None), ParseDisableModerationIntended(None)), subject)
  {
  }

  /** The reply of the moderation service: the `flagged` field of each entry
      of `response.results`, or a failed call (any exception). */
  datatype ModerationReply = Responded(flagged: seq<bool>) | CallFailed

  /** `is_content_safe`: safe only when the call succeeded and its first
      result is not flagged. A flagged result is unsafe; a failed call, and a
      reply with no results (the index `results[0]` raises), are unsafe too:
      the check fails closed. */
  function IsContentSafe(reply: ModerationReply): (safe: bool)
    ensures safe <==> reply.Responded? && |reply.flagged| > 0 && !reply.flagged[0]
  {
    match reply
    case CallFailed => false
    case Responded(flagged) => if |flagged| == 0 then false else !flagged[0]
  }
}
