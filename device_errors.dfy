/** Device ids and the typed errors of the device package. A device id is
    also the client id a claiming device connects with and the last level of
    the topic its claim is answered on. */
module DeviceErrors {
  import opened Wrappers
  import opened Errors
  import Topics

  /** `[a-zA-Z0-9_.@-]`. */
  predicate IsIdChar(c: char) {
    ('a' <= c <= 'z') || ('A' <= c <= 'Z') || ('0' <= c <= '9') || c == '_' || c == '.' || c == '@' || c == '-'
  }

  /** `validateDeviceId`: the id matches `^[a-zA-Z0-9_.@-]+$`. */
  function ValidateDeviceId(id: string): (ok: bool)
    ensures ok <==> id != "" && forall i | 0 <= i < |id| :: IsIdChar(id[i])
  {
    id != "" && forall i | 0 <= i < |id| :: IsIdChar(id[i])
  }

  /** The empty id and ids holding a topic separator, a wildcard or a
      newline are rejected. */
  lemma RejectsTopicSyntax(id: string)
    requires id == "" || '/' in id || '+' in id || '#' in id || '\n' in id
    ensures !ValidateDeviceId(id)
  {
    if id != "" {
      var i :| 0 <= i < |id| && id[i] in "/+#\n";
      assert !IsIdChar(id[i]);
    }
  }

  /** A valid id is a single topic level without wildcards or newlines, so
      `me/claim/<id>` names exactly one claim. */
  lemma ValidIdIsLevel(id: string)
    requires ValidateDeviceId(id)
    ensures Topics.IsLevel(id) && Topics.IsLine(id) && '+' !in id && '#' !in id
  {
    forall c | c in id
      ensures c != '/' && c != '\n' && c != '+' && c != '#'
    {
      var i :| 0 <= i < |id| && id[i] == c;
      assert IsIdChar(id[i]);
    }
  }

  /** The status codes of the device package's errors. */
  lemma DeviceErrorStatuses(id: string)
    ensures DuplicateDevice(id).StatusCode() == Some(StatusConflict)
    ensures DeviceNotFound(id).StatusCode() == Some(StatusNotFound)
    ensures InvalidDeviceId(id).StatusCode() == Some(StatusBadRequest)
    ensures DuplicateClaim(id).StatusCode() == Some(StatusConflict)
    ensures ClaimNotFound(id).StatusCode() == Some(StatusNotFound)
  {
  }

  /** The invalid-id message does not reveal the id; the other messages name
      it. */
  lemma MessagesAndIds(a: string, b: string)
    ensures InvalidDeviceId(a).Message() == InvalidDeviceId(b).Message()
    ensures DeviceNotFound(a).Message() == DeviceNotFound(b).Message() ==> a == b
    ensures DuplicateDevice(a).Message() == DuplicateDevice(b).Message() ==> a == b
    ensures ClaimNotFound(a).Message() == ClaimNotFound(b).Message() ==> a == b
  {
    if DeviceNotFound(a).Message() == DeviceNotFound(b).Message() {
      assert a == DeviceNotFound(a).Message()[18..];
    }
    if DuplicateDevice(a).Message() == DuplicateDevice(b).Message() {
      assert a == DuplicateDevice(a).Message()[23..];
    }
    if ClaimNotFound(a).Message() == ClaimNotFound(b).Message() {
      assert a == ClaimNotFound(a).Message()[22..];
    }
  }
}
