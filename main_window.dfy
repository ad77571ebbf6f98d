/**
 * The main window's input checks: the registration form (username length
 * and password strength), the train and save-model buttons (a logged-in
 * non-guest user in training mode, sane epochs and batch size, a model
 * name that is not blank), and the minimum size a resize keeps.  Each
 * check answers with the error message the window shows, or none.
 */
module MainWindow {
  import opened Wrappers
  import opened Constants
  import Strings

  /** The user id of the guest session. */
  const GUEST_ID: string := "-1"

  const MSG_USERNAME_LENGTH: string := "用户名长度4-20字符"
  const MSG_WEAK_PASSWORD: string := "密码需6位以上，含字母和数字"
  const MSG_GUEST_TRAIN: string := "游客无法训练模型"
  const MSG_NOT_TRAIN_MODE: string := "请切换到训练模式"
  const MSG_GAME_RUNNING: string := "请先停止当前游戏"
  const MSG_EPOCHS: string := "训练轮次1-100"
  const MSG_BATCH: string := "批次大小1-256"
  const MSG_GUEST_SAVE: string := "游客无法保存模型"
  const MSG_SAVE_NOT_TRAIN_MODE: string := "仅训练模式支持保存模型"
  const MSG_NO_MODEL_NAME: string := "请输入模型名称"

  predicate IsDigit(c: char) { '0' <= c <= '9' }

  predicate IsAlpha(c: char) { 'a' <= c <= 'z' || 'A' <= c <= 'Z' }

  predicate HasDigit(s: string) { exists i :: 0 <= i < |s| && IsDigit(s[i]) }

  predicate HasAlpha(s: string) { exists i :: 0 <= i < |s| && IsAlpha(s[i]) }

  /**
   * The registration form's error, if any: the username must have 4 to 20
   * characters, then the password at least 6 with a digit and a letter.
   */
  function RegistrationError(username: string, password: string): (e: Option<string>)
    ensures e.None? <==> 4 <= |username| <= 20 && |password| >= 6 && HasDigit(password) && HasAlpha(password)
    ensures e == Some(MSG_USERNAME_LENGTH) <==> |username| < 4 || |username| > 20
    ensures e == Some(MSG_WEAK_PASSWORD) <==>
      4 <= |username| <= 20 && (|password| < 6 || !HasDigit(password) || !HasAlpha(password))
  {
    if |username| < 4 || |username| > 20 then Some(MSG_USERNAME_LENGTH)
    else if |password| < 6 || !HasDigit(password) || !HasAlpha(password) then Some(MSG_WEAK_PASSWORD)
    else None
  }

  /** A password like "abc123" passes with any username of a valid length. */
  lemma SamplePasswordAccepted(username: string)
    requires 4 <= |username| <= 20
    ensures RegistrationError(username, "abc123").None?
  {
    assert IsDigit("abc123"[3]) && IsAlpha("abc123"[0]);
  }

  /** A user may train or save only when logged in and not the guest. */
  predicate IsRealUser(userId: Option<string>)
  {
    userId.Some? && userId.value != GUEST_ID
  }

  /**
   * The train button's error, if any, checked in order: a real user, the
   * training mode, no game running, 1 to 100 epochs, 1 to 256 per batch.
   */
  function TrainError(userId: Option<string>, mode: string, gameActive: bool, epochs: int, batchSize: int): (e: Option<string>)
    ensures e.None? <==>
      IsRealUser(userId) && mode == TRAIN && !gameActive && 1 <= epochs <= 100 && 1 <= batchSize <= 256
    ensures !IsRealUser(userId) ==> e == Some(MSG_GUEST_TRAIN)
    ensures IsRealUser(userId) && mode == TRAIN && !gameActive ==>
      (e == Some(MSG_EPOCHS) <==> epochs <= 0 || epochs > 100) &&
      (e == Some(MSG_BATCH) <==> 1 <= epochs <= 100 && (batchSize <= 0 || batchSize > 256))
  {
    if !IsRealUser(userId) then Some(MSG_GUEST_TRAIN)
    else if mode != TRAIN then Some(MSG_NOT_TRAIN_MODE)
    else if gameActive then Some(MSG_GAME_RUNNING)
    else if epochs <= 0 || epochs > 100 then Some(MSG_EPOCHS)
    else if batchSize <= 0 || batchSize > 256 then Some(MSG_BATCH)
    else None
  }

  /**
   * The save-model button: an error for the guest (or no user), outside
   * training mode, or for a name that is blank once stripped; otherwise
   * the stripped name the model is saved under.
   */
  function SaveModelName(userId: Option<string>, mode: string, rawName: string): (r: Result<string>)
    ensures r.Ok? <==> IsRealUser(userId) && mode == TRAIN && exists i :: 0 <= i < |rawName| && !Strings.IsSpace(rawName[i])
    ensures r.Ok? ==> r.value == Strings.Strip(rawName) && r.value != ""
    ensures !IsRealUser(userId) ==> r == Err(MSG_GUEST_SAVE)
    ensures IsRealUser(userId) && mode != TRAIN ==> r == Err(MSG_SAVE_NOT_TRAIN_MODE)
  {
    if !IsRealUser(userId) then Err(MSG_GUEST_SAVE)
    else if mode != TRAIN then Err(MSG_SAVE_NOT_TRAIN_MODE)
    else
      var name := Strings.Strip(rawName);
      if name == "" then Err(MSG_NO_MODEL_NAME) else Ok(name)
  }

  /** The window size the layout works from, never below the configured minimum. */
  class Window {
    var baseWidth: int
    var baseHeight: int
    const minWidth: int
    const minHeight: int

    constructor (defaultWidth: int, defaultHeight: int, minWidth: int, minHeight: int)
      ensures baseWidth == defaultWidth && baseHeight == defaultHeight
      ensures this.minWidth == minWidth && this.minHeight == minHeight
    {
      baseWidth := defaultWidth;
      baseHeight := defaultHeight;
      this.minWidth := minWidth;
      this.minHeight := minHeight;
    }

    /** After a resize the size is the requested one, raised to the minimum where it falls short. */
    method HandleResize(newWidth: int, newHeight: int)
      modifies this`baseWidth, this`baseHeight
      ensures baseWidth >= minWidth && baseWidth >= newWidth && (baseWidth == newWidth || baseWidth == minWidth)
      ensures baseHeight >= minHeight && baseHeight >= newHeight && (baseHeight == newHeight || baseHeight == minHeight)
    {
      baseWidth := if newWidth >= minWidth then newWidth else minWidth;
      baseHeight := if newHeight >= minHeight then newHeight else minHeight;
    }
  }
}
