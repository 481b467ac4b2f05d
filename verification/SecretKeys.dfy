/** The keys whose values are secret. */
module SecretKeys {
  import opened PrefixPass
  import opened Redaction
  import opened SecretPrefixes

  const SECRET_KEYS := [
    Key(["aws", "secret", "access", "key"], false), Key(["wifi", "psk"], false),
    Key(["docker", "auth", "config"], false), Key(["psk"], false), Key(["auth"], false),
    Key(["password"], true), Key(["passwd"], false), Key(["passphrase"], true), Key(["secret"], true),
    Key(["auth", "secret"], true), Key(["client", "secret"], true), Key(["token"], true),
    Key(["access", "token"], true), Key(["refresh", "token"], true), Key(["api", "key"], true),
    Key(["private", "key"], true), Key(["ssh", "key"], true), Key(["credential"], true),
    Key(["cookie"], true), Key(["authorization"], true), Key(["signature"], true), Key(["sig"], false),
    Key(["aws", "access", "key", "id"], false), Key(["google", "access", "id"], false)]

  method RedactCliValues(message: string) returns (rendered: string)
    ensures rendered == Redact(LogRules(Flag(SECRET_KEYS)), false, message)
    ensures Redact(LogRules(Flag(SECRET_KEYS)), false, rendered) == rendered
  {
    rendered := RedactPrefixedValues(LogRules(Flag(SECRET_KEYS)), message);
    RedactionIsIdempotent(Flag(SECRET_KEYS), message);
  }

  method RedactAssignments(message: string) returns (rendered: string)
    ensures rendered == Redact(LogRules(Assignment(SECRET_KEYS)), false, message)
    ensures Redact(LogRules(Assignment(SECRET_KEYS)), false, rendered) == rendered
  {
    rendered := RedactPrefixedValues(LogRules(Assignment(SECRET_KEYS)), message);
    RedactionIsIdempotent(Assignment(SECRET_KEYS), message);
  }
}
