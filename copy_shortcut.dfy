/** The copy shortcut: a key press that is Ctrl with the key "c" suppresses
    the browser's own copy and starts copying the canvas to the clipboard as
    a PNG image. The copy either shows a success notification, shows a
    failure notification, or does nothing. The browser's encoder and
    clipboard are reduced to what they can report back. */
module CopyShortcut {

  /** The fields of a `keydown` event that the handler reads, and the other
      modifier a user might expect to work. */
  datatype KeyEvent = KeyEvent(key: string, ctrlKey: bool, metaKey: bool)

  /** How `canvas.toBlob` ends: the encoder throws, hands back `null`, or
      hands back a PNG blob. */
  datatype Encoding = EncodeThrows | BlobNull | Blob

  /** How the clipboard step ends: `navigator.clipboard` or `ClipboardItem`
      is missing, so evaluating the call throws before `write` is invoked;
      `write` is invoked and rejects (permission refused, ...); or `write`
      is invoked and succeeds. */
  datatype ClipboardWrite = WriteUnavailable | WriteRejects | WriteOk

  /** What the browser does when asked during one copy: whether the canvas
      is mounted, how encoding ends, and how the clipboard step ends. */
  datatype CopyEnv = CopyEnv(canvasPresent: bool, encoding: Encoding, write: ClipboardWrite)

  /** A notification shown to the user. */
  datatype Toast = Toast(title: string, description: string, destructive: bool)

  const SuccessToast: Toast :=
    Toast("Image copied!", "The image has been saved to your clipboard.", false)
  const FailureToast: Toast :=
    Toast("Copy failed", "Failed to copy image. Your browser might not support this feature.", true)

  /** What one copy did: whether it asked the clipboard to take the image,
      whether the clipboard took it, whether it logged an error, and the
      notifications it showed, in order. */
  datatype CopyTrace = CopyTrace(writeAttempted: bool, written: bool, errorLogged: bool, toasts: seq<Toast>)

  /** Nothing happened. */
  const NoEffect: CopyTrace := CopyTrace(false, false, false, [])

  /** The outcome of `copyImageToClipboard`: at most one notification; the
      success notification exactly when the image reached the clipboard,
      which is exactly when the canvas is there, encodes to a blob and the
      write succeeds; `write` is invoked only when there is a blob and the
      clipboard API exists; the failure notification, with an error logged,
      exactly when encoding or the clipboard step throws; and nothing at all
      when the canvas is missing or encodes to `null`. */
  function CopyImageToClipboard(env: CopyEnv): (r: CopyTrace)
    ensures |r.toasts| <= 1
    ensures SuccessToast in r.toasts <==> r.written
    ensures r.written <==> env.canvasPresent && env.encoding == Blob && env.write == WriteOk
    ensures r.writeAttempted <==>
      env.canvasPresent && env.encoding == Blob && env.write != WriteUnavailable
    ensures r.written ==> r.writeAttempted
    ensures FailureToast in r.toasts <==> r.errorLogged
    ensures r.errorLogged <==>
      env.canvasPresent && (env.encoding == EncodeThrows || (env.encoding == Blob && env.write != WriteOk))
    ensures r.toasts == [] <==> !env.canvasPresent || env.encoding == BlobNull
    ensures !env.canvasPresent || env.encoding == BlobNull ==> r == NoEffect
  {
    if !env.canvasPresent then NoEffect
    else
      match env.encoding
      case EncodeThrows => CopyTrace(false, false, true, [FailureToast])
      case BlobNull => NoEffect
      case Blob =>
        match env.write
        case WriteUnavailable => CopyTrace(false, false, true, [FailureToast])
        case WriteRejects => CopyTrace(true, false, true, [FailureToast])
        case WriteOk => CopyTrace(true, true, false, [SuccessToast])
  }

  /** The trigger test of `handleKeyDown`. */
  predicate IsCopyChord(e: KeyEvent)
  {
    e.ctrlKey && e.key == "c"
  }

  /** What one `keydown` leads to. */
  datatype KeyResult = KeyResult(defaultPrevented: bool, copy: CopyTrace)

  /** `handleKeyDown` followed by the copy it starts: a key press prevents
      the default and copies exactly when it is Ctrl with "c"; any other key
      press prevents nothing, writes nothing and shows nothing. */
  function HandleKeyDown(e: KeyEvent, env: CopyEnv): (r: KeyResult)
    ensures r.defaultPrevented <==> e.ctrlKey && e.key == "c"
    ensures e.ctrlKey && e.key == "c" ==> r.copy == CopyImageToClipboard(env)
    ensures !r.defaultPrevented ==> r.copy == NoEffect
    ensures r.copy.written ==> r.defaultPrevented
    ensures |r.copy.toasts| > 0 ==> e.ctrlKey && e.key == "c"
  {
    if IsCopyChord(e) then KeyResult(true, CopyImageToClipboard(env))
    else KeyResult(false, NoEffect)
  }

  /** The handler looks at the Ctrl key only: Command with "c" copies the
      text as usual and the canvas is not copied. */
  lemma MetaCDoesNotCopy(env: CopyEnv)
    ensures HandleKeyDown(KeyEvent("c", false, true), env) == KeyResult(false, NoEffect)
  {
  }

  /** The key test is case-sensitive: Ctrl with Shift reports "C" and does
      not copy the canvas. */
  lemma CtrlShiftCDoesNotCopy(env: CopyEnv)
    ensures HandleKeyDown(KeyEvent("C", true, false), env) == KeyResult(false, NoEffect)
  {
  }

  /** With a working clipboard, Ctrl+c writes the image once and shows only
      the success notification. */
  lemma CopySucceeds(e: KeyEvent)
    requires IsCopyChord(e)
    ensures HandleKeyDown(e, CopyEnv(true, Blob, WriteOk)).copy ==
      CopyTrace(true, true, false, [SuccessToast])
  {
  }
}
