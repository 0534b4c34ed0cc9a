/** Shared-resource configs: the redacted view a client gets and the merge of an
    edited view back into what is stored, as a lens. */
module SecretConfig {

  /** A JSON value; only strings are looked into. */
  datatype Json = Str(s: string) | Other(tag: nat)

  /** A stored config: none at all, JSON null, text that is no JSON object, or an object. */
  datatype Config = Missing | Null | Malformed | Object(fields: map<string, Json>)

  const MASK := Str("••••••••")
  const EMPTY := Str("")

  predicate IsSecret(key: string) {
    key in {"token", "refresh_token", "password", "secret_key", "secret_access_key", "client_secret",
            "webhook_secret", "private_key", "passphrase", "api_token", "api_key"}
  }

  // ---------------------------------------------------------------- what is done

  /** Every secret that is not the empty string is masked. */
  function Masked(fields: map<string, Json>): map<string, Json> {
    map k | k in fields :: if IsSecret(k) && fields[k] != EMPTY then MASK else fields[k]
  }

  function Redact(c: Config): Config {
    match c
    case Malformed => Object(map[])
    case Object(fields) => Object(Masked(fields))
    case _ => c
  }

  predicate IsUntouched(fields: map<string, Json>, k: string) {
    k in fields && IsSecret(k) && fields[k] == MASK
  }

  function Stored(c: Config): map<string, Json> {
    if c.Object? then c.fields else map[]
  }

  /** A secret still masked is taken from the stored fields, or dropped when it is not there. */
  function Restored(stored: map<string, Json>, fields: map<string, Json>): map<string, Json> {
    map k | k in fields && (IsUntouched(fields, k) ==> k in stored) ::
      if IsUntouched(fields, k) then stored[k] else fields[k]
  }

  function Merge(existing: Config, incoming: Config): Config {
    if incoming.Object? then Object(Restored(Stored(existing), incoming.fields)) else incoming
  }

  // ------------------------------------------------------------ what a merge keeps

  /** Every key that is not a secret still masked is stored with exactly the value
      given; a masked secret is stored exactly when it was stored before, with its
      old value; and nothing else is stored. */
  lemma MergeStores(existing: Config, fields: map<string, Json>, k: string)
    ensures Merge(existing, Object(fields)).Object?
    ensures var merged := Merge(existing, Object(fields)).fields;
      && (k in fields && !(IsSecret(k) && fields[k] == MASK) ==> k in merged && merged[k] == fields[k])
      && (k in fields && IsSecret(k) && fields[k] == MASK ==>
            (k in merged <==> existing.Object? && k in existing.fields)
            && (k in merged ==> merged[k] == existing.fields[k]))
      && (k !in fields ==> k !in merged)
  {
  }

  /** Changing a secret in the view and saving it stores the change, and with it
      nothing but what was there; whatever else was stored survives. */
  lemma SecretsCanBeChanged(fields: map<string, Json>, k: string, value: Json)
    requires value != MASK
    ensures var view := Redact(Object(fields)).fields;
      Merge(Object(fields), Object(view[k := value])) == Object(fields[k := value])
  {
    var view := Masked(fields);
    assert Restored(fields, view[k := value]) == fields[k := value];
  }

  // ---------------------------------------------------------------- lens laws

  /** Saving the view back unedited changes nothing, exactly when the stored text is readable. */
  lemma UneditedViewIsHarmless(c: Config)
    ensures Merge(c, Redact(c)) == c <==> !c.Malformed?
  {
    if c.Object? {
      assert Restored(c.fields, Masked(c.fields)) == c.fields;
    }
  }

  lemma RedactTwice(c: Config)
    ensures Redact(Redact(c)) == Redact(c)
  {
    if c.Object? {
      assert Masked(Masked(c.fields)) == Masked(c.fields);
    } else if c.Malformed? {
      assert Masked(map[]) == map[];
    }
  }

  /** What was put is what is seen, exactly when every secret left masked is stored and not empty. */
  lemma PutIsSeen(existing: Config, incoming: Config)
    ensures Redact(Merge(existing, incoming)) == Redact(incoming) <==>
            (incoming.Object? ==>
               forall k :: IsUntouched(incoming.fields, k) ==> k in Stored(existing) && Stored(existing)[k] != EMPTY)
  {
    if incoming.Object? {
      var stored, fields := Stored(existing), incoming.fields;
      var seen, put := Masked(Restored(stored, fields)), Masked(fields);
      if forall k :: IsUntouched(fields, k) ==> k in stored && stored[k] != EMPTY {
        assert seen == put;
      } else {
        var k :| IsUntouched(fields, k) && !(k in stored && stored[k] != EMPTY);
        assert k in put && put[k] == MASK;
        assert k in seen ==> seen[k] == EMPTY;
      }
    }
  }

  /** The mask ends up under a secret exactly when it was stored there and left there. */
  lemma MaskNeverIntroduced(existing: Config, incoming: Config, k: string)
    requires incoming.Object? && IsSecret(k)
    ensures IsUntouched(Merge(existing, incoming).fields, k) <==>
              IsUntouched(incoming.fields, k) && IsUntouched(Stored(existing), k)
  {
  }

  /** Saving the view of what a save left changes nothing, exactly when the save itself was readable. */
  lemma SavesSettle(existing: Config, incoming: Config)
    ensures Merge(Merge(existing, incoming), Redact(Merge(existing, incoming))) == Merge(existing, incoming) <==>
              !incoming.Malformed?
  {
    UneditedViewIsHarmless(Merge(existing, incoming));
  }

  /** A redacted view shows no secret: each secret key holds the mask or nothing. */
  lemma ViewShowsNoSecret(c: Config, k: string)
    requires Redact(c).Object? && k in Redact(c).fields && IsSecret(k)
    ensures Redact(c).fields[k] in {MASK, EMPTY}
  {
  }

  /** What is a credential is hidden, what is not is shown. */
  lemma OnlyCredentialsAreHidden(s: string)
    requires s != ""
    ensures Redact(Object(map["endpoint" := Str(s), "bucket" := Other(0), "secret_key" := Str(s), "token" := Other(0)]))
         == Object(map["endpoint" := Str(s), "bucket" := Other(0), "secret_key" := MASK, "token" := MASK])
  {
  }

  // ------------------------------------------------------------------ the loops

  /** RedactResourceConfig, overwriting the decoded map as it walks it. */
  method RedactResourceConfig(c: Config) returns (r: Config)
    ensures r == Redact(c)
  {
    match c {
      case Missing => return c;
      case Malformed => return Object(map[]);
      case Null => return c;
      case Object(fields) =>
        var cfg, todo, changed := fields, fields.Keys, false;
        while todo != {}
          invariant todo <= fields.Keys == cfg.Keys
          invariant forall k | k in fields :: cfg[k] == if k in todo then fields[k] else Masked(fields)[k]
          invariant !changed ==> cfg == fields
          decreases |todo|
        {
          var k :| k in todo;
          todo := todo - {k};
          if IsSecret(k) && cfg[k] != EMPTY {
            cfg := cfg[k := MASK];
            changed := true;
          }
        }
        assert cfg == Masked(fields);
        if !changed {
          return c;
        }
        return Object(cfg);
    }
  }

  /** mergeSecretConfig, restoring and deleting as it walks the incoming map. */
  method MergeSecretConfig(existing: Config, incoming: Config) returns (r: Config)
    ensures r == Merge(existing, incoming)
  {
    if !incoming.Object? {
      return incoming;
    }
    var stored, fields := Stored(existing), incoming.fields;
    var merged, todo, changed := fields, fields.Keys, false;
    ghost var goal := Restored(stored, fields);
    while todo != {}
      invariant todo <= fields.Keys
      invariant forall k :: k in merged <==> if k in todo then k in fields else k in goal
      invariant forall k | k in merged :: merged[k] == if k in todo then fields[k] else goal[k]
      invariant !changed ==> merged == fields
      decreases |todo|
    {
      var k :| k in todo;
      todo := todo - {k};
      if IsSecret(k) && merged[k] == MASK {
        if k in stored {
          merged := merged[k := stored[k]];
        } else {
          merged := merged - {k};
        }
        changed := true;
      }
    }
    assert merged == goal;
    if !changed {
      return incoming;
    }
    return Object(merged);
  }
}
