/** The visitor record that the tracking endpoint stores and the dashboard endpoint lists. */
module Visits {
  import opened Wrappers
  import opened Text

  datatype VisitorRecord = VisitorRecord(
    ip: string, userAgent: string, referrer: string, page: string, timestamp: string,
    country: Option<string>, city: Option<string>, org: Option<string>,
    company: Option<string>, companyDomain: Option<string>, companyConfidence: nat)

  /** The store keys the two endpoints share. */
  const RecentKey := "recent_visitors"

  function DayKey(day: string): string {
    "visits:" + day
  }

  /** The date part of an ISO time: `iso.split('T')[0]`. */
  function Day(iso: string): string {
    Split(iso, 'T')[0]
  }
}
