/**
 * The two class methods of `LoginHistory`: the new-location test over a
 * user's earlier logins, and the location string of the alert.
 */
module LoginHistory {
  import opened Text
  import opened Domain

  /** A successful earlier login of the user from this IP address. */
  predicate KnownIp(records: seq<LoginRecord>, user: User, ip: string) {
    exists i :: 0 <= i < |records| && records[i].user.id == user.id && records[i].ip == ip && records[i].loginSuccessful
  }

  /** A successful earlier login of the user from this country and city. */
  predicate KnownPlace(records: seq<LoginRecord>, user: User, country: string, city: string) {
    exists i :: 0 <= i < |records|
      && records[i].user.id == user.id && records[i].country == country && records[i].city == city
      && records[i].loginSuccessful
  }

  /**
   * `is_new_login_location`: new unless the IP is known, or, when a country
   * is given, the (country, city) pair is known. A missing city is "".
   */
  function IsNewLoginLocation(records: seq<LoginRecord>, user: User, ip: string, country: string, city: string): (isNew: bool)
    ensures isNew <==> !KnownIp(records, user, ip) && (country == "" || !KnownPlace(records, user, country, city))
  {
    if KnownIp(records, user, ip) then false
    else if country != "" && KnownPlace(records, user, country, city) then false
    else true
  }

  /** Adding a failed login, or any login of another user, leaves the answer unchanged. */
  lemma {:induction false} OnlyOwnSuccessfulLoginsCount(records: seq<LoginRecord>, r: LoginRecord, user: User,
                                                         ip: string, country: string, city: string)
    requires !r.loginSuccessful || r.user.id != user.id
    ensures IsNewLoginLocation(records + [r], user, ip, country, city) == IsNewLoginLocation(records, user, ip, country, city)
  {
    var all := records + [r];
    if KnownIp(all, user, ip) {
      var i :| 0 <= i < |all| && all[i].user.id == user.id && all[i].ip == ip && all[i].loginSuccessful;
      assert i < |records| && all[i] == records[i];
    }
    if KnownPlace(all, user, country, city) {
      var i :| 0 <= i < |all| && all[i].user.id == user.id && all[i].country == country && all[i].city == city
        && all[i].loginSuccessful;
      assert i < |records| && all[i] == records[i];
    }
    if KnownIp(records, user, ip) {
      var i :| 0 <= i < |records| && records[i].user.id == user.id && records[i].ip == ip && records[i].loginSuccessful;
      assert all[i] == records[i];
    }
    if KnownPlace(records, user, country, city) {
      var i :| 0 <= i < |records| && records[i].user.id == user.id && records[i].country == country
        && records[i].city == city && records[i].loginSuccessful;
      assert all[i] == records[i];
    }
  }

  /** Without a country only the IP decides; with no history at all every login is new. */
  lemma NewLocationCases(records: seq<LoginRecord>, user: User, ip: string, city: string)
    ensures IsNewLoginLocation(records, user, ip, "", city) <==> !KnownIp(records, user, ip)
    ensures IsNewLoginLocation([], user, ip, "", city)
  {
  }

  /** Once a successful login from an IP is recorded, later logins from that IP are not new. */
  lemma {:induction false} RecordedIpIsKnown(records: seq<LoginRecord>, r: LoginRecord, country: string, city: string)
    requires r.loginSuccessful
    ensures !IsNewLoginLocation(records + [r], r.user, r.ip, country, city)
  {
    var all := records + [r];
    assert all[|records|] == r;
  }

  /**
   * `get_location_string`: "city, country" when both are known, the country
   * alone without a city, "Unknown location" without a country; the city
   * never shows without a country.
   */
  function GetLocationString(country: string, city: string): (s: string)
    ensures country == "" ==> s == "Unknown location"
    ensures country != "" ==> EndsWith(s, country)
    ensures country != "" && city == "" ==> s == country
    ensures country != "" && city != "" ==> |s| == |city| + 2 + |country| && s[..|city|] == city && s[|city|..|city| + 2] == ", "
  {
    if city != "" && country != "" then
      var s := city + ", " + country;
      assert s[..|city|] == city && s[|city|..|city| + 2] == ", " && s[|s| - |country|..] == country;
      s
    else if country != "" then
      assert country[|country| - |country|..] == country;
      country
    else "Unknown location"
  }
}
