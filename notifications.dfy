/**
 * The notification hook: per-user sound settings (loaded from and saved to the
 * `user_settings` table) and the decision of what to do when a message arrives.
 * The browser's `Audio` element, the `Notification` API and user-agent sniffing
 * are inputs here: whether the device is mobile, whether notification
 * permission is granted and whether the audio element exists.
 */
module Notifications {
  import opened Backend

  datatype MessageKind = Dm | Room

  /** A call `playNotificationSound(kind, isCurrentChat)` made by a chat component. */
  datatype SoundRequest = SoundRequest(kind: MessageKind, isCurrentChat: bool)

  /** `soundVolume` is only ever copied, so a real number stands for the source's float. */
  datatype Settings = Settings(soundEnabled: bool, soundVolume: real)

  const DEFAULT_SETTINGS := Settings(true, 0.7)
  const MISSING_ROW_CODE: seq<char> := "PGRST116"

  datatype SoundAction =
    | Silent
    | SystemNotification(title: seq<char>, body: seq<char>)
    | PlayFromStart(position: nat)

  function NotificationBody(kind: MessageKind): (body: seq<char>)
    ensures kind == Dm ==> body == "You have a new direct message"
    ensures kind == Room ==> body == "You have a new room message"
  {
    "You have a new " + (if kind == Dm then "direct message" else "room message")
  }

  /** The guard chain of `playNotificationSound`. */
  function PlayNotificationSound(req: SoundRequest, settings: Settings, isMobile: bool,
                                 permissionGranted: bool, hasAudio: bool): (a: SoundAction)
    ensures req.isCurrentChat || !settings.soundEnabled ==> a == Silent
    ensures a.SystemNotification? <==> !req.isCurrentChat && settings.soundEnabled && isMobile && permissionGranted
    ensures a.PlayFromStart? <==> !req.isCurrentChat && settings.soundEnabled && !isMobile && hasAudio
    ensures a.SystemNotification? ==> a.title == "New Message" && a.body == NotificationBody(req.kind)
    ensures a.PlayFromStart? ==> a.position == 0
  {
    if req.isCurrentChat then Silent
    else if !settings.soundEnabled then Silent
    else if isMobile then
      (if permissionGranted then SystemNotification("New Message", NotificationBody(req.kind)) else Silent)
    else if hasAudio then PlayFromStart(0)
    else Silent
  }

  /** `Partial<NotificationSettings>`: the fields a save call overrides. */
  datatype SettingsPatch = SettingsPatch(soundEnabled: Option<bool>, soundVolume: Option<real>)

  /** `{ ...settings, ...patch }`. */
  function Merge(s: Settings, p: SettingsPatch): (m: Settings)
    ensures m.soundEnabled == p.soundEnabled.GetOr(s.soundEnabled)
    ensures m.soundVolume == p.soundVolume.GetOr(s.soundVolume)
  {
    Settings(p.soundEnabled.GetOr(s.soundEnabled), p.soundVolume.GetOr(s.soundVolume))
  }

  /** An empty patch saves the settings unchanged. */
  lemma MergeEmptyPatch(s: Settings)
    ensures Merge(s, SettingsPatch(None, None)) == s
  {
  }

  /** Saving the same patch twice gives what saving it once gave. */
  lemma MergeIdempotent(s: Settings, p: SettingsPatch)
    ensures Merge(Merge(s, p), p) == Merge(s, p)
  {
  }

  /** A later patch overrides an earlier one field by field. */
  lemma MergeSequence(s: Settings, p: SettingsPatch, q: SettingsPatch)
    ensures Merge(Merge(s, p), q)
            == Merge(s, SettingsPatch(if q.soundEnabled.Some? then q.soundEnabled else p.soundEnabled,
                                      if q.soundVolume.Some? then q.soundVolume else p.soundVolume))
  {
  }

  /** A `user_settings` row as loaded: either column may be null. */
  datatype SettingsRow = SettingsRow(soundEnabled: Option<bool>, soundVolume: Option<real>)

  /** The row written by `saveNotificationSettings` (the `updated_at` clock value is not modelled). */
  datatype SettingsUpsert = SettingsUpsert(userId: Id, soundEnabled: bool, soundVolume: real)

  /** Settings read from a loaded row: null columns take the defaults. */
  function FromRow(row: SettingsRow): (s: Settings)
    ensures row.soundEnabled.None? ==> s.soundEnabled
    ensures row.soundEnabled.Some? ==> s.soundEnabled == row.soundEnabled.value
    ensures row.soundVolume.None? ==> s.soundVolume == DEFAULT_SETTINGS.soundVolume
    ensures row.soundVolume.Some? ==> s.soundVolume == row.soundVolume.value
  {
    Merge(DEFAULT_SETTINGS, SettingsPatch(row.soundEnabled, row.soundVolume))
  }

  class NotificationHook {
    var settings: Settings
    var isLoading: bool

    constructor ()
      ensures settings == DEFAULT_SETTINGS && settings.soundEnabled && !isLoading
    {
      settings := DEFAULT_SETTINGS;
      isLoading := false;
    }

    /**
     * `loadNotificationSettings`: an error other than "no row" (PGRST116) is
     * reported and changes nothing; a returned row replaces the settings.
     */
    method LoadNotificationSettings(reply: Reply<SettingsRow>) returns (reported: bool)
      modifies this
      ensures reported <==> reply.Failure? && reply.error.code != MISSING_ROW_CODE
      ensures reply.Success? && reply.data.Some? ==> settings == FromRow(reply.data.value)
      ensures !(reply.Success? && reply.data.Some?) ==> settings == old(settings)
      ensures isLoading == old(isLoading)
    {
      reported := false;
      if reply.Failure? && reply.error.code != MISSING_ROW_CODE {
        reported := true;
        return;
      }
      if reply.Success? && reply.data.Some? {
        var row := reply.data.value;
        settings := Settings(row.soundEnabled.GetOr(true), row.soundVolume.GetOr(0.7));
      }
    }

    /**
     * `saveNotificationSettings`: without a user nothing happens; otherwise the
     * merged settings are upserted and become the state only if the upsert succeeded.
     */
    method SaveNotificationSettings(user: Option<Id>, patch: SettingsPatch, upsertError: Option<Error>)
      returns (upsert: Option<SettingsUpsert>)
      modifies this
      ensures user.None? ==> upsert.None? && settings == old(settings) && isLoading == old(isLoading)
      ensures user.Some? ==> upsert == Some(SettingsUpsert(user.value, Merge(old(settings), patch).soundEnabled,
                                                                 Merge(old(settings), patch).soundVolume))
      ensures user.Some? && upsertError.None? ==> settings == Merge(old(settings), patch)
      ensures user.Some? && upsertError.Some? ==> settings == old(settings)
      ensures user.Some? ==> !isLoading
    {
      if user.None? {
        return None;
      }
      isLoading := true;
      var updated := Merge(settings, patch);
      upsert := Some(SettingsUpsert(user.value, updated.soundEnabled, updated.soundVolume));
      if upsertError.None? {
        settings := updated;
      }
      isLoading := false;
    }

    /** `updateVolume`: save a new volume, keeping `soundEnabled`. */
    method UpdateVolume(user: Option<Id>, volume: real, upsertError: Option<Error>) returns (upsert: Option<SettingsUpsert>)
      modifies this
      ensures user.None? ==> upsert.None?
      ensures user.Some? ==> upsert == Some(SettingsUpsert(user.value, old(settings).soundEnabled, volume))
      ensures user.Some? && upsertError.None? ==> settings == old(settings).(soundVolume := volume)
      ensures user.None? || upsertError.Some? ==> settings == old(settings)
      ensures user.None? ==> isLoading == old(isLoading)
      ensures user.Some? ==> !isLoading
    {
      upsert := SaveNotificationSettings(user, SettingsPatch(None, Some(volume)), upsertError);
    }

    /** `toggleSound`: save the negation of the current `soundEnabled`. */
    method ToggleSound(user: Option<Id>, upsertError: Option<Error>) returns (upsert: Option<SettingsUpsert>)
      modifies this
      ensures user.None? ==> upsert.None?
      ensures user.Some? ==> upsert == Some(SettingsUpsert(user.value, !old(settings).soundEnabled, old(settings).soundVolume))
      ensures user.Some? && upsertError.None? ==> settings == old(settings).(soundEnabled := !old(settings).soundEnabled)
      ensures user.None? || upsertError.Some? ==> settings == old(settings)
      ensures user.None? ==> isLoading == old(isLoading)
      ensures user.Some? ==> !isLoading
    {
      upsert := SaveNotificationSettings(user, SettingsPatch(Some(!settings.soundEnabled), None), upsertError);
    }
  }
}
