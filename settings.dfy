/** The application's preferences store: one record of settings, overwritten
    as a whole or field by field, read back as a whole or field by field, and a
    test whether the record is complete enough to connect with. */
module Settings {

  /** The window rectangle. Its coordinates are single-precision floats in the
      program; here they are reals, and only their sign is ever examined. */
  datatype Rect = Rect(x: real, y: real, width: real, height: real)

  datatype Settings = Settings(
    windowRect: Rect,
    embySecure: bool,
    embyServer: string,
    embyPort: string,
    embyUser: string,
    embyPassword: string)

  /** The zero value the store starts with. */
  const ZeroSettings := Settings(Rect(0.0, 0.0, 0.0, 0.0), false, "", "", "", "")

  /** A record is complete when the server, port, user and password are all
      given and the window has a positive width and height. */
  predicate Complete(s: Settings)
  {
    && s.embyServer != "" && s.embyPort != "" && s.embyUser != "" && s.embyPassword != ""
    && s.windowRect.width > 0.0 && s.windowRect.height > 0.0
  }

  class PreferencesStore {
    var settings: Settings

    constructor()
      ensures settings == ZeroSettings
    {
      settings := ZeroSettings;
    }

    /** Overwrites every field; nothing of the previous record survives. */
    method SetPreferencesDetail(rect: Rect, secure: bool, server: string, port: string, user: string,
                                password: string)
      modifies this
      ensures settings == Settings(rect, secure, server, port, user, password)
    {
      settings := settings.(windowRect := rect);
      settings := settings.(embySecure := secure);
      settings := settings.(embyServer := server);
      settings := settings.(embyPort := port);
      settings := settings.(embyUser := user);
      settings := settings.(embyPassword := password);
    }

    method SetPreferences(s: Settings)
      modifies this
      ensures settings == s
    {
      settings := s;
    }

    /** The whole record; the store is not changed. */
    method GetPreferences() returns (s: Settings)
      ensures s == settings
    {
      s := settings;
    }

    /** The six fields of the record; the store is not changed. */
    method GetPreferencesDetail() returns (rect: Rect, secure: bool, server: string, port: string,
                                           user: string, password: string)
      ensures Settings(rect, secure, server, port, user, password) == settings
    {
      rect, secure, server, port, user, password :=
        settings.windowRect, settings.embySecure, settings.embyServer, settings.embyPort,
        settings.embyUser, settings.embyPassword;
    }

    /** The stored record is complete. The store a program starts with is
        not, and neither the secure flag nor the window position matters. */
    predicate Valid()
      reads this
      ensures Valid() ==> settings != ZeroSettings
      ensures Valid() == Complete(settings.(embySecure := false, windowRect := settings.windowRect.(x := 0.0, y := 0.0)))
    {
      Complete(settings)
    }
  }

  /** Setting the six fields and reading them back gives the six values; the
      record is then complete exactly when they are. */
  method DetailRoundTrip(store: PreferencesStore, rect: Rect, secure: bool, server: string, port: string,
                         user: string, password: string)
      returns (rect': Rect, secure': bool, server': string, port': string, user': string, password': string,
               valid: bool)
    modifies store
    ensures (rect', secure', server', port', user', password') == (rect, secure, server, port, user, password)
    ensures valid <==> server != "" && port != "" && user != "" && password != "" &&
                       rect.width > 0.0 && rect.height > 0.0
  {
    store.SetPreferencesDetail(rect, secure, server, port, user, password);
    rect', secure', server', port', user', password' := store.GetPreferencesDetail();
    valid := store.Valid();
  }

  /** Storing a record and reading it back gives that record; reading does not
      change the store, so a second read gives it again. */
  method WholeRoundTrip(store: PreferencesStore, s: Settings) returns (first: Settings, second: Settings)
    modifies store
    ensures first == s && second == s
    ensures store.settings == s
  {
    store.SetPreferences(s);
    first := store.GetPreferences();
    second := store.GetPreferences();
  }

  /** Setting field by field and setting the whole record agree. */
  method DetailIsWhole(a: PreferencesStore, b: PreferencesStore, s: Settings)
    requires a != b
    modifies a, b
    ensures a.settings == b.settings == s
  {
    a.SetPreferencesDetail(s.windowRect, s.embySecure, s.embyServer, s.embyPort, s.embyUser, s.embyPassword);
    b.SetPreferences(s);
  }
}
