/**
 * The pending-registration store (infrastructure/services/OtpStore.ts): one
 * in-memory record per email holding the OTP, its expiry time and the details
 * of the registration waiting for it. The clock is a parameter.
 */
module OtpStores {
  import opened Wrappers
  import opened Entities

  /** An OTP stays valid for five minutes. */
  const OtpLifetimeMs: int := 5 * 60 * 1000

  datatype UserDetails = UserDetails(name: string, email: string, password: string)

  datatype OtpRecord = OtpRecord(otp: string, expires: Millis, userDetails: UserDetails)

  /** The record `verifyOtp` accepts `otp` against at `now`: present, not yet expired, same OTP. */
  predicate Accepts(records: map<string, OtpRecord>, email: string, otp: string, now: Millis) {
    email in records && !(records[email].expires < now) && records[email].otp == otp
  }

  /** `storeUserDetailsWithOTP`: the record for `email` is replaced, expiring five minutes from `now`. */
  function StoreEffect(records: map<string, OtpRecord>, email: string, otp: string, details: UserDetails, now: Millis)
    : (r: map<string, OtpRecord>)
    ensures r.Keys == records.Keys + {email}
    ensures r[email] == OtpRecord(otp, now + OtpLifetimeMs, details)
    ensures forall e :: e in records && e != email ==> r[e] == records[e]
  {
    records[email := OtpRecord(otp, now + OtpLifetimeMs, details)]
  }

  /** `verifyOtp`: the verdict, and the records after (an expired record is dropped, nothing else changes). */
  function VerifyEffect(records: map<string, OtpRecord>, email: string, otp: string, now: Millis)
    : (r: (bool, map<string, OtpRecord>))
    ensures r.0 <==> Accepts(records, email, otp, now)
    ensures email in records && records[email].expires < now ==> r.1 == records - {email}
    ensures !(email in records && records[email].expires < now) ==> r.1 == records
  {
    if email !in records then (false, records)
    else if records[email].expires < now then (false, records - {email})
    else (records[email].otp == otp, records)
  }

  class OtpStore {
    var records: map<string, OtpRecord>

    constructor ()
      ensures records == map[]
    {
      records := map[];
    }

    method StoreUserDetailsWithOtp(email: string, otp: string, details: UserDetails, now: Millis)
      modifies this
      ensures records == StoreEffect(old(records), email, otp, details, now)
    {
      records := records[email := OtpRecord(otp, now + OtpLifetimeMs, details)];
    }

    method VerifyOtp(email: string, otp: string, now: Millis) returns (ok: bool)
      modifies this
      ensures (ok, records) == VerifyEffect(old(records), email, otp, now)
    {
      if email !in records {
        return false;
      }
      var record := records[email];
      if record.expires < now {
        records := records - {email};
        return false;
      }
      ok := record.otp == otp;
    }

    /** `getUserDetailsByEmail`: the pending details, expired or not. */
    function GetUserDetailsByEmail(email: string): (r: Option<UserDetails>)
      reads this
      ensures r.Some? <==> email in records
      ensures r.Some? ==> r.value == records[email].userDetails
    {
      if email in records then Some(records[email].userDetails) else None
    }

    method RemoveOtp(email: string)
      modifies this
      ensures records == old(records) - {email}
    {
      records := records - {email};
    }
  }

  /** A stored OTP verifies for five minutes (the expiry instant included) and not after. */
  lemma StoredOtpVerifiesUntilExpiry(records: map<string, OtpRecord>, email: string, otp: string,
                                     details: UserDetails, stored: Millis, now: Millis)
    requires stored <= now
    ensures var after := StoreEffect(records, email, otp, details, stored);
      VerifyEffect(after, email, otp, now).0 <==> now <= stored + OtpLifetimeMs
  {
  }

  /** Verifying a stored record after its expiry deletes it, so later attempts fail even with the right OTP. */
  lemma ExpiredRecordIsDropped(records: map<string, OtpRecord>, email: string, otp: string, now: Millis, later: Millis)
    requires email in records && records[email].expires < now
    ensures var after := VerifyEffect(records, email, otp, now).1;
      email !in after && !VerifyEffect(after, email, records[email].otp, later).0
  {
  }

  /** A failed check against a live record keeps it: a mistyped OTP can be retried. */
  lemma MismatchKeepsRecord(records: map<string, OtpRecord>, email: string, otp: string, now: Millis)
    requires email in records && !(records[email].expires < now) && records[email].otp != otp
    ensures VerifyEffect(records, email, otp, now) == (false, records)
  {
  }

  /** Storing a new OTP for an email replaces the old one: the old OTP no longer verifies. */
  lemma RestoreInvalidatesOldOtp(records: map<string, OtpRecord>, email: string, oldOtp: string, newOtp: string,
                                 details: UserDetails, stored: Millis, now: Millis)
    requires oldOtp != newOtp
    ensures !VerifyEffect(StoreEffect(records, email, newOtp, details, stored), email, oldOtp, now).0
  {
  }
}
