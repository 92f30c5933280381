/**
 * The shapes that both notification managers hand to the Android platform:
 * the channel they register, and the delayed `notify` calls that `start`
 * schedules. Delivery itself is the platform's business and is not modelled.
 */
module NotificationPlatform {
  /** NotificationManager.IMPORTANCE_DEFAULT. */
  const ImportanceDefault: int := 3

  datatype NotificationChannel = NotificationChannel(id: string, name: string, importance: int)

  /** One `postDelayed` call: after `delay` milliseconds, `notify(id, notification)`. */
  datatype Post<N> = Post(delay: nat, id: int, notification: N)

  /**
   * What a call to `start` does: it schedules posts, or it throws because a
   * `lateinit` field (the application context) was read before `initialize`.
   */
  datatype StartOutcome<N> = Scheduled(posts: seq<Post<N>>) | UninitializedAccess
}
