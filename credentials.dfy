/**
 * The command line's saved credentials (src/credentials.rs) and their
 * rendering, which hides the secret behind a mask of `X` characters one per
 * byte of the secret.
 */
module Credentials {
  import opened Text

  datatype AzCredentials = AzCredentials(tenantId: string, clientId: string, clientSecret: string)

  /** `AzCredentials::new`. */
  function New(tenantId: string, clientId: string, clientSecret: string): (c: AzCredentials)
    ensures c.tenantId == tenantId && c.clientId == clientId && c.clientSecret == clientSecret
  {
    AzCredentials(tenantId, clientId, clientSecret)
  }

  /** `"X".repeat(secret.len())`: `len` counts UTF-8 bytes. */
  function Mask(secret: string): (m: string)
    ensures |m| == Utf8Len(secret)
    ensures forall i :: 0 <= i < |m| ==> m[i] == 'X'
  {
    Repeat('X', Utf8Len(secret))
  }

  /** `Display for AzCredentials`. */
  function Display(c: AzCredentials): string {
    "{ tenant_id: " + c.tenantId + ", client_id: " + c.clientId + ", client_secret: " + Mask(c.clientSecret) + " }"
  }

  /** The rendering is the fixed frame around the identity and the mask. */
  lemma DisplayShape(c: AzCredentials)
    ensures var d := Display(c);
      var head := "{ tenant_id: " + c.tenantId + ", client_id: " + c.clientId + ", client_secret: ";
      |d| == |head| + Utf8Len(c.clientSecret) + 2
      && d[..|head|] == head
      && (forall i :: |head| <= i < |head| + Utf8Len(c.clientSecret) ==> d[i] == 'X')
      && d[|d| - 2..] == " }"
  {
  }

  /** Two records with the same identity and secrets of the same byte length render alike. */
  lemma SecretNotShown(c1: AzCredentials, c2: AzCredentials)
    requires c1.tenantId == c2.tenantId && c1.clientId == c2.clientId
    requires Utf8Len(c1.clientSecret) == Utf8Len(c2.clientSecret)
    ensures Display(c1) == Display(c2)
  {
  }

  /** For an ASCII secret the mask has exactly one `X` per character. */
  lemma AsciiMaskLength(secret: string)
    requires IsAscii(secret)
    ensures |Mask(secret)| == |secret|
  {
    AsciiUtf8Len(secret);
  }
}
