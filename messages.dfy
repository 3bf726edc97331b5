/** The operations of `LineMessage` beyond its plain field getters. */
module Messages {
  import opened Wrappers
  import opened LineTypes
  import Directory

  /** `image_preview`: the raw preview bytes, which only an image message carries. */
  function ImagePreview(m: Message): (r: Result<seq<bv8>, LineError>)
    ensures r.Success? <==> m.contentType == TYPE_IMAGE
    ensures r.Success? ==> r.value == m.contentPreview
    ensures r.Failure? ==> r.error == NotAnImage
  {
    if m.contentType != TYPE_IMAGE then Failure(NotAnImage) else Success(m.contentPreview)
  }

  /** `sender`: the contact named by the message's origin, looked up at access time. */
  function Sender(dir: Directory.Dir, m: Message): (r: Result<Contact, LineError>)
    ensures r.Success? <==> m.frm in dir
    ensures r.Failure? ==> r.error == NotFound(m.frm)
    ensures r.Success? ==> r.value == dir[m.frm]
    ensures Directory.WellKeyed(dir) && r.Success? ==> r.value.mid == m.frm
  {
    Directory.Lookup(dir, m.frm)
  }

  /** `recipient`: the contact named by the message's destination, looked up at access time. */
  function Recipient(dir: Directory.Dir, m: Message): (r: Result<Contact, LineError>)
    ensures r.Success? <==> m.to in dir
    ensures r.Failure? ==> r.error == NotFound(m.to)
    ensures r.Success? ==> r.value == dir[m.to]
    ensures Directory.WellKeyed(dir) && r.Success? ==> r.value.mid == m.to
  {
    Directory.Lookup(dir, m.to)
  }
}
